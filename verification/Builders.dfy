/** The message builders (ellidri-tokens/src/buffers.rs) and the tag section a recipient may not want. */
module Builders {
  import opened Text
  import opened Tags
  import opened Messages

  /** A client tag is passed on when it has the client prefix and a name. */
  function ClientItem(e: string): seq<TagItem>
  {
    if e != "" && e[0] == '+' && !(|e| >= 2 && e[..2] == "+=") then [Raw(e)] else []
  }

  /** The client tags that are passed on. */
  function ClientItems(entries: seq<string>): (items: seq<TagItem>)
    ensures (forall k :: 0 <= k < |entries| ==> ';' !in entries[k]) ==> forall i :: i in items ==> ItemOk(i)
  {
    if entries == [] then [] else ClientItem(entries[0]) + ClientItems(entries[1..])
  }

  lemma ClientEnds(entries: seq<string>)
    ensures ClientItems(entries) == [] + ClientItems(entries[0..]) && TagText([]) == ""
    ensures forall done: seq<TagItem> :: done + ClientItems(entries[|entries|..]) == done
  {
  }

  lemma ClientStep(entries: seq<string>, k: nat, done: seq<TagItem>)
    requires k < |entries| && ClientItems(entries) == done + ClientItems(entries[k..])
    ensures ClientItems(entries) == done + ClientItem(entries[k]) + ClientItems(entries[k + 1..])
  {
    hide ClientItem;
    var rest, now, more := entries[k..], ClientItem(entries[k]), ClientItems(entries[k + 1..]);
    assert rest[1..] == entries[k + 1..];
    assert done + (now + more) == done + now + more;
  }

  lemma TagTextSnoc(done: seq<TagItem>, item: TagItem)
    ensures TagText(done + [item]) == AddTag(TagText(done), ItemText(item))
  {
  }

  /** What `save_tag_len` stores for a tag section at the start of a buffer. */
  function SavedLen(section: string): nat
  {
    if section == "" || section[|section| - 1] == '@' then 0 else |section| + 2
  }

  lemma Regroup3(a: string, b: string, c: string, d: string)
    ensures a + b + c + d == a + (b + c + d)
  {
  }

  /** One string that the tag and message builders push into. */
  class Builder {
    var buf: string
    var tagStart: nat

    ghost predicate Tagging()
      reads this
    {
      tagStart < |buf| && buf[tagStart] == '@'
    }

    /** The tags written so far. */
    ghost function Section(): string
      requires Tagging()
      reads this
    {
      buf[tagStart + 1..]
    }

    constructor ()
      ensures buf == ""
    {
      buf, tagStart := "", 0;
    }

    /** `TagBuffer::new`. */
    method BeginTags()
      modifies this
      ensures Tagging() && Section() == "" && tagStart == |old(buf)| && buf == old(buf) + "@"
    {
      tagStart := |buf|;
      buf := buf + "@";
    }

    method Push(text: string)
      requires Tagging()
      modifies this`buf
      ensures Tagging() && Section() == old(Section()) + text
      ensures buf[..tagStart] == old(buf[..tagStart])
    {
      buf := buf + text;
    }

    /** The semicolon before every tag but the first. */
    method Separate()
      requires Tagging()
      modifies this`buf
      ensures Tagging() && Section() == if old(Section()) == "" then "" else old(Section()) + ";"
      ensures buf[..tagStart] == old(buf[..tagStart])
    {
      if |buf| != tagStart + 1 {
        buf := buf + ";";
      }
    }

    method RawTag(text: string)
      requires Tagging()
      modifies this`buf
      ensures Tagging() && Section() == AddTag(old(Section()), text)
      ensures buf[..tagStart] == old(buf[..tagStart])
    {
      Separate();
      Push(text);
    }

    /** `TagBuffer::tag`: the key, and the escaped value after an equals sign. */
    method Tag(key: string, value: Option<string>)
      requires Tagging()
      modifies this`buf
      ensures Tagging() && Section() == AddTag(old(Section()), ItemText(Pair(key, value)))
      ensures buf[..tagStart] == old(buf[..tagStart])
    {
      Separate();
      ghost var before := Section();
      Push(key);
      if value.Some? {
        Push("=");
        var escaped := WriteEscaped("", value.value);
        assert "" + Escape(value.value) == Escape(value.value);
        Push(escaped);
        Regroup3(before, key, "=", Escape(value.value));
      }
      assert Section() == before + ItemText(Pair(key, value));
    }

    /** `Buffer::tagged_message`: keeps the client tags of a list, drops the others. */
    method ClientTags(entries: seq<string>)
      requires Tagging() && Section() == ""
      modifies this`buf
      ensures Tagging() && Section() == TagText(ClientItems(entries))
      ensures buf[..tagStart] == old(buf[..tagStart])
    {
      hide TagText, ClientItems, AddTag;
      ghost var done: seq<TagItem> := [];
      ClientEnds(entries);
      for k := 0 to |entries|
        invariant Tagging() && Section() == TagText(done)
        invariant buf[..tagStart] == old(buf[..tagStart])
        invariant ClientItems(entries) == done + ClientItems(entries[k..])
      {
        var e := entries[k];
        ClientStep(entries, k, done);
        if e != "" && e[0] == '+' && !(|e| >= 2 && e[..2] == "+=") {
          RawTag(e);
          TagTextSnoc(done, Raw(e));
          done := done + [Raw(e)];
        }
      }
    }

    /** `save_tag_len`. */
    method SaveTagLen() returns (n: nat)
      requires Tagging()
      ensures n == SavedLen(Section())
    {
      if buf[|buf| - 1] == '@' {
        n := 0;
      } else {
        n := |buf| + 1 - tagStart;
      }
    }

    /** `TagBuffer::prefixed_command` and `MessageBuffer::with_prefix`. */
    method PrefixedCommand(prefix: string, command: Command)
      requires Tagging()
      modifies this`buf
      ensures var section := old(Section());
              buf == old(buf[..tagStart]) + (if section == "" then "" else "@" + section + " ")
                     + PrefixText(prefix) + command.name
    {
      ghost var section, base := Section(), buf[..tagStart];
      assert buf == base + "@" + section;
      if |buf| == tagStart + 1 {
        buf := buf[..|buf| - 1];
      } else {
        buf := buf + " ";
      }
      ghost var tags := if section == "" then "" else "@" + section + " ";
      assert buf == base + tags;
      WritePrefix(prefix);
      buf := buf + command.name;
    }

    method WritePrefix(prefix: string)
      modifies this`buf
      ensures buf == old(buf) + PrefixText(prefix)
    {
      if prefix != "" {
        buf := buf + ":";
        buf := buf + prefix;
        buf := buf + " ";
      }
    }

    method Param(p: string)
      modifies this`buf
      ensures buf == old(buf) + ParamText(p)
    {
      var trimmed := Trim(p);
      if trimmed == "" { return; }
      buf := buf + " ";
      buf := buf + trimmed;
    }

    method TrailingParam(p: string)
      modifies this`buf
      ensures buf == old(buf) + " :" + p
    {
      buf := buf + " ";
      buf := buf + ":";
      buf := buf + p;
    }

    /** Dropping a `MessageBuffer` ends the line. */
    method Finish()
      modifies this`buf
      ensures buf == old(buf) + CRLF
    {
      buf := buf + CRLF;
    }
  }

  /** What sits on a client's queue: a text and the offset a recipient without tags reads from. */
  datatype QueueItem = QueueItem(start: nat, text: string)

  /** `Client::send` and `MessageQueueItem::as_ref`. */
  function Received(item: QueueItem, hasTags: bool): string
    requires item.start <= |item.text|
  {
    if hasTags then item.text else item.text[item.start..]
  }

  function RelayTags(clientTags: string, msgid: string, time: string, account: Option<string>): seq<TagItem>
  {
    ClientItems(Split(clientTags, ';')) + [Pair("msgid", Some(msgid)), Pair("time", Some(time))]
    + if account.Some? then [Pair("account", account)] else []
  }

  /** A message relayed from a client, as a line. */
  function RelayLine(clientTags: string, msgid: string, time: string, account: Option<string>,
                     fullName: string, command: Command, target: string, content: Option<string>): Line
  {
    Line(RelayTags(clientTags, msgid, time, account), fullName, command, [target], content)
  }

  lemma ParamsTextOne(target: string, content: Option<string>)
    ensures ParamsText([target], content) == ParamText(target) + if content.None? then "" else " :" + content.value
  {
  }

  /** The tag part of `message_build`, up to saving its length. */
  method RelayTagPart(b: Builder, clientTags: string, msgid: string, time: string, account: Option<string>)
    returns (tagLen: nat)
    requires b.buf == ""
    modifies b
    ensures b.Tagging() && b.tagStart == 0 && b.Section() == TagText(RelayTags(clientTags, msgid, time, account))
    ensures tagLen == SavedLen(b.Section())
  {
    hide TagText, ItemText, AddTag, ClientItems, Split, SavedLen;
    b.BeginTags();
    b.ClientTags(Split(clientTags, ';'));
    ghost var items := ClientItems(Split(clientTags, ';'));
    b.Tag("msgid", Some(msgid));
    TagTextSnoc(items, Pair("msgid", Some(msgid)));
    items := items + [Pair("msgid", Some(msgid))];
    b.Tag("time", Some(time));
    TagTextSnoc(items, Pair("time", Some(time)));
    items := items + [Pair("time", Some(time))];
    if account.Some? {
      b.Tag("account", account);
      TagTextSnoc(items, Pair("account", account));
      items := items + [Pair("account", account)];
    }
    assert items == RelayTags(clientTags, msgid, time, account);
    tagLen := b.SaveTagLen();
  }

  /** The item `message_build` makes for other clients. */
  method MessageBuild(clientTags: string, msgid: string, time: string, account: Option<string>,
                      fullName: string, command: Command, target: string, content: Option<string>)
    returns (item: QueueItem)
    ensures var line := RelayLine(clientTags, msgid, time, account, fullName, command, target, content);
            item == QueueItem(SavedLen(TagText(line.tags)), Print(line))
  {
    hide TagText, RelayTags, SavedLen, Print, PrefixText, ParamText;
    ghost var line := RelayLine(clientTags, msgid, time, account, fullName, command, target, content);
    RelayText(line, target);
    var b := new Builder();
    var tagLen := RelayTagPart(b, clientTags, msgid, time, account);
    b.PrefixedCommand(fullName, command);
    assert b.buf == TagPartText(line.tags) + PrefixText(fullName) + command.name by {
      assert "" + TagPartText(line.tags) == TagPartText(line.tags);
    }
    b.Param(target);
    if content.Some? {
      b.TrailingParam(content.value);
    }
    b.Finish();
    item := QueueItem(tagLen, b.buf);
  }

  /** The text of a line with one parameter, in the order it is written. */
  lemma RelayText(line: Line, target: string)
    requires line.params == [target]
    ensures line.trailing.None? ==>
              Print(line) == TagPartText(line.tags) + PrefixText(line.prefix) + line.command.name + ParamText(target) + CRLF
    ensures line.trailing.Some? ==>
              Print(line) == TagPartText(line.tags) + PrefixText(line.prefix) + line.command.name + ParamText(target)
                             + " :" + line.trailing.value + CRLF
  {
    ParamsTextOne(target, line.trailing);
    var a, b, c, d := TagPartText(line.tags), PrefixText(line.prefix), line.command.name, ParamText(target);
    if line.trailing.None? {
      assert d + "" == d;
      Regroup3(a, b, c, d);
      Assoc(b, c, d);
    } else {
      var t := line.trailing.value;
      Regroup(a, b, c, d, " :" + t);
      Assoc(a + b + c + d, " :", t);
    }
  }

  lemma Regroup(a: string, b: string, c: string, d: string, e: string)
    ensures a + b + c + d + e == a + (b + (c + (d + e)))
  {
  }

  // ---- stripping the tags

  /** The exact condition: the section is empty or does not end in `@`. */
  predicate Strippable(tags: seq<TagItem>)
  {
    TagText(tags) == "" || TagText(tags)[|TagText(tags)| - 1] != '@'
  }

  /**
   * A recipient without tag support reads, from the saved offset, exactly the message built with no
   * tags if and only if the tag section does not end in `@`.
   */
  lemma StrippingIsExact(line: Line)
    ensures SavedLen(TagText(line.tags)) <= |Print(line)|
    ensures Received(QueueItem(SavedLen(TagText(line.tags)), Print(line)), true) == Print(line)
    ensures Received(QueueItem(SavedLen(TagText(line.tags)), Print(line)), false) == Print(line.(tags := []))
            <==> Strippable(line.tags)
  {
    var tags := TagText(line.tags);
    var bare := line.(tags := []);
    assert Print(bare) == Untagged(line) + CRLF;
    if tags != "" {
      Assoc("@" + tags + " ", Untagged(line), CRLF);
      assert Print(line) == ("@" + tags + " ") + Print(bare);
      assert Print(line)[|tags| + 2..] == Print(bare);
    }
  }

  lemma {:induction false} EscapeLast(value: string)
    requires value != ""
    ensures Escape(value) != ""
    ensures Escape(value)[|Escape(value)| - 1] == '@' <==> value[|value| - 1] == '@'
  {
    if |value| > 1 {
      EscapeLast(value[1..]);
    } else {
      assert Escape(value) == EscapeChar(value[0]) + Escape("");
    }
  }

  /** For a relayed message the last tag decides: the account if there is one, else the time. */
  lemma RelayedTagsStrip(clientTags: string, msgid: string, time: string, account: Option<string>)
    ensures var last := if account.Some? then account.value else time;
            Strippable(RelayTags(clientTags, msgid, time, account)) <==> last == "" || last[|last| - 1] != '@'
  {
    var items := RelayTags(clientTags, msgid, time, account);
    var key := if account.Some? then "account" else "time";
    var last := if account.Some? then account.value else time;
    assert items[|items| - 1] == Pair(key, Some(last));
    hide TagText, Escape, ClientItems, Split;
    LastTagEnds(items, key, last);
  }

  lemma LastTagEnds(items: seq<TagItem>, key: string, last: string)
    requires items != [] && items[|items| - 1] == Pair(key, Some(last))
    ensures Strippable(items) <==> last == "" || last[|last| - 1] != '@'
  {
    var text := key + "=" + Escape(last);
    var before := TagText(items[..|items| - 1]);
    assert TagText(items) == AddTag(before, text);
    assert TagText(items)[|TagText(items)| - 1] == text[|text| - 1];
    if last != "" {
      EscapeLast(last);
      assert text[|text| - 1] == Escape(last)[|Escape(last)| - 1];
    } else {
      assert Escape(last) == "";
    }
  }

  /** What the server relays can always be stripped: nobody has an account, and a time ends in Z. */
  lemma ServerRelaysStrip(clientTags: string, msgid: string, time: string)
    requires time != "" && time[|time| - 1] == 'Z'
    ensures Strippable(RelayTags(clientTags, msgid, time, None))
  {
    RelayedTagsStrip(clientTags, msgid, time, None);
  }

  /** The builder itself allows more: any tags followed by one whose value ends in an at sign cannot be stripped. */
  lemma AtSignIsNotStripped(items: seq<TagItem>, key: string, value: string)
    requires value != "" && value[|value| - 1] == '@'
    ensures !Strippable(items + [Pair(key, Some(value))])
  {
    LastTagEnds(items + [Pair(key, Some(value))], key, value);
  }
}
