/** IRCv3 message tags: escaping, the tag section, and reading it back. */
module Tags {
  import opened Text

  /** `write_escaped` of one character. */
  function EscapeChar(c: char): string
  {
    match c
    case ';' => "\\:"
    case ' ' => "\\s"
    case '\r' => "\\r"
    case '\n' => "\\n"
    case '\\' => "\\\\"
    case _ => [c]
  }

  function Escape(value: string): string
  {
    if value == "" then "" else EscapeChar(value[0]) + Escape(value[1..])
  }

  /** `tag_escape`: the character an escape stands for. */
  function TagEscape(c: char): char
  {
    match c
    case ':' => ';'
    case 's' => ' '
    case 'r' => '\r'
    case 'n' => '\n'
    case _ => c
  }

  /** `unescape_value_into` from a point where `escape` says whether a backslash was just read. */
  function Unescape(text: string, escape: bool): string
  {
    if text == "" then ""
    else if text[0] == '\\' && !escape then Unescape(text[1..], true)
    else [if escape then TagEscape(text[0]) else text[0]] + Unescape(text[1..], false)
  }

  method WriteEscaped(buf: string, value: string) returns (r: string)
    ensures r == buf + Escape(value)
  {
    r := buf;
    for k := 0 to |value|
      invariant r + Escape(value[k..]) == buf + Escape(value)
    {
      assert value[k..][1..] == value[k + 1..];
      r := r + EscapeChar(value[k]);
    }
  }

  method UnescapeValue(value: string) returns (r: string)
    ensures r == Unescape(value, false)
  {
    r := "";
    var escape := false;
    for k := 0 to |value|
      invariant r + Unescape(value[k..], escape) == Unescape(value, false)
    {
      assert value[k..][1..] == value[k + 1..];
      if value[k] == '\\' && !escape {
        escape := true;
      } else {
        r := r + [if escape then TagEscape(value[k]) else value[k]];
        escape := false;
      }
    }
  }

  lemma UnescapeOne(c: char, rest: string)
    ensures Unescape(EscapeChar(c) + rest, false) == [c] + Unescape(rest, false)
  {
  }

  /** Unescaping undoes escaping, for every value. */
  lemma {:induction false} UnescapeEscape(value: string)
    ensures Unescape(Escape(value), false) == value
  {
    if value != "" {
      UnescapeOne(value[0], Escape(value[1..]));
      UnescapeEscape(value[1..]);
    }
  }

  /** The escaped text holds no separator of the tag section or of the line. */
  lemma {:induction false} EscapeIsClean(value: string)
    ensures forall c :: c in Escape(value) ==> c != ';' && c != ' ' && c != '\r' && c != '\n'
    ensures Escape(value) == "" <==> value == ""
  {
    if value != "" { EscapeIsClean(value[1..]); }
  }

  // ---- the tag section

  /** A tag as the builder gets it: text taken over from a client, or a key with a value to escape. */
  datatype TagItem = Raw(text: string) | Pair(key: string, value: Option<string>)

  datatype Tag = Tag(key: string, value: Option<string>)

  function ItemText(item: TagItem): string
  {
    match item
    case Raw(text) => text
    case Pair(key, None) => key
    case Pair(key, Some(value)) => key + "=" + Escape(value)
  }

  /** One more tag: a semicolon first when the section is not empty. */
  function AddTag(section: string, text: string): string
  {
    if section == "" then text else section + ";" + text
  }

  /** The tag section after the tags before the last and then the last. */
  function TagText(items: seq<TagItem>): string
  {
    if items == [] then "" else AddTag(TagText(items[..|items| - 1]), ItemText(items[|items| - 1]))
  }

  /** The entries `tags` looks at. */
  predicate Kept(entry: string)
  {
    entry != "" && entry[0] != '=' && !(|entry| >= 2 && entry[..2] == "+=")
  }

  /** `Tag::parse`: the key up to the first equals sign; an empty value is none. */
  function ParseTag(entry: string): Tag
  {
    var parts := Split(entry, '=');
    var value := Join(parts[1..], '=');
    Tag(parts[0], if |parts| == 1 || value == "" then None else Some(value))
  }

  function ParseEntries(entries: seq<string>): seq<Tag>
  {
    if entries == [] then []
    else (if Kept(entries[0]) then [ParseTag(entries[0])] else []) + ParseEntries(entries[1..])
  }

  /** `tags`: the tags of a section. */
  function ParseTags(section: string): seq<Tag>
  {
    ParseEntries(Split(section, ';'))
  }

  /** A tag that reads back: no separator in its key, and the key is not a lone plus before a value. */
  predicate ItemOk(item: TagItem)
  {
    match item
    case Raw(text) => Kept(text) && ';' !in text
    case Pair(key, value) => key != "" && ';' !in key && '=' !in key && (value.Some? ==> key != "+")
  }

  /** What a written tag reads back as; the value is the escaped text. */
  function ItemMeaning(item: TagItem): Tag
  {
    match item
    case Raw(text) => ParseTag(text)
    case Pair(key, value) => Tag(key, if value.None? || value.value == "" then None else Some(Escape(value.value)))
  }

  lemma ItemReadsBack(item: TagItem)
    requires ItemOk(item)
    ensures Kept(ItemText(item)) && ';' !in ItemText(item)
    ensures ParseTag(ItemText(item)) == ItemMeaning(item)
  {
    if item.Pair? {
      SplitWhole(item.key, '=');
      if item.value.Some? {
        var value := Escape(item.value.value);
        EscapeIsClean(item.value.value);
        assert ItemText(item) == item.key + ['='] + value;
        SplitConcat(item.key, value, '=');
        JoinSplit(value, '=');
        assert Split(ItemText(item), '=')[1..] == Split(value, '=');
        assert ItemText(item)[|item.key|] == '=';
      }
    }
  }

  lemma {:induction false} ParseEntriesConcat(a: seq<string>, b: seq<string>)
    ensures ParseEntries(a + b) == ParseEntries(a) + ParseEntries(b)
  {
    if a == [] {
      assert a + b == b;
    } else {
      assert (a + b)[1..] == a[1..] + b;
      ParseEntriesConcat(a[1..], b);
    }
  }

  /** Reading a built tag section gives the same keys and values, in order. */
  lemma {:induction false} TagsRoundTrip(items: seq<TagItem>)
    requires forall k :: 0 <= k < |items| ==> ItemOk(items[k])
    ensures ParseTags(TagText(items)) == seq(|items|, k requires 0 <= k < |items| => ItemMeaning(items[k]))
    ensures TagText(items) == "" <==> items == []
  {
    if items == [] {
      assert ParseEntries([""]) == [];
    } else {
      var init, last := items[..|items| - 1], items[|items| - 1];
      TagsRoundTrip(init);
      ItemReadsBack(last);
      var text := ItemText(last);
      SplitWhole(text, ';');
      assert ParseEntries([text]) == [ItemMeaning(last)];
      if init != [] {
        assert TagText(items) == TagText(init) + [';'] + text;
        SplitConcat(TagText(init), text, ';');
        ParseEntriesConcat(Split(TagText(init), ';'), [text]);
      }
    }
  }

  /** The value of a read-back tag unescapes to the value that was written. */
  lemma ValueRoundTrip(key: string, value: string)
    requires ItemOk(Pair(key, Some(value)))
    ensures ParseTag(ItemText(Pair(key, Some(value)))).key == key
    ensures var read := ParseTag(ItemText(Pair(key, Some(value)))).value;
            if value == "" then read == None else read.Some? && Unescape(read.value, false) == value
  {
    ItemReadsBack(Pair(key, Some(value)));
    UnescapeEscape(value);
  }

  // ---- values passed on without being unescaped

  /** A value that needs no escape. */
  predicate Plain(value: string)
  {
    forall c :: c in value ==> EscapeChar(c) == [c]
  }

  /** Escaping leaves a value as it is exactly when no character of it is escaped. */
  lemma {:induction false} EscapeKeeps(value: string)
    ensures |Escape(value)| >= |value|
    ensures Escape(value) == value <==> Plain(value)
  {
    if value != "" {
      var first, rest := EscapeChar(value[0]), value[1..];
      EscapeKeeps(rest);
      assert value == [value[0]] + rest;
      assert Escape(value) == first + Escape(rest);
      if Escape(value) == value {
        assert |first| == 1;
        assert first[0] == Escape(value)[0];
        assert Escape(value)[1..] == Escape(rest);
      }
    }
  }

  lemma {:induction false} SplitChars(s: string, sep: char, k: nat)
    requires k < |Split(s, sep)|
    ensures forall c :: c in Split(s, sep)[k] ==> c in s
  {
    if s != "" {
      if s[0] == sep {
        if k > 0 { SplitChars(s[1..], sep, k - 1); }
      } else {
        SplitChars(s[1..], sep, k);
      }
    }
  }

  /** The value of a tag is the end of its entry. */
  lemma ValueEndsEntry(entry: string)
    ensures ParseTag(entry).value.Some? ==> forall c :: c in ParseTag(entry).value.value ==> c in entry
  {
    var parts := Split(entry, '=');
    JoinSplit(entry, '=');
    if |parts| > 1 {
      var value := Join(parts[1..], '=');
      assert entry == parts[0] + ['='] + value;
      assert forall k :: 0 <= k < |value| ==> value[k] == entry[|parts[0]| + 1 + k];
    }
  }

  lemma {:induction false} ParsedIsEntry(entries: seq<string>, tag: Tag)
    requires tag in ParseEntries(entries)
    ensures exists k :: 0 <= k < |entries| && tag == ParseTag(entries[k])
  {
    if !(Kept(entries[0]) && tag == ParseTag(entries[0])) {
      ParsedIsEntry(entries[1..], tag);
      var k :| 0 <= k < |entries[1..]| && tag == ParseTag(entries[1..][k]);
      assert entries[k + 1] == entries[1..][k];
    }
  }

  /** A value read off the tag section of a line needs an escape only for a backslash. */
  lemma ReadValuePlain(section: string, tag: Tag)
    requires tag in ParseTags(section) && tag.value.Some?
    requires ' ' !in section && '\r' !in section && '\n' !in section
    ensures Plain(tag.value.value) <==> '\\' !in tag.value.value
  {
    var entries := Split(section, ';');
    ParsedIsEntry(entries, tag);
    var k :| 0 <= k < |entries| && tag == ParseTag(entries[k]);
    ValueEndsEntry(entries[k]);
    SplitChars(section, ';', k);
    var value := tag.value.value;
    assert forall c :: c in value ==> c != ';' && c != ' ' && c != '\r' && c != '\n';
  }
}
