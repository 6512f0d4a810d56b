/** The tokenizer does not mind how many spaces stand between the parts of a line. */
module Spacing {
  import opened Text
  import opened Messages
  import opened Tags
  import opened RoundTrip

  function Spaces(n: nat): (s: string)
    ensures |s| == n && forall k :: 0 <= k < n ==> s[k] == ' '
  {
    if n == 0 then "" else " " + Spaces(n - 1)
  }

  /** The parameters with `gaps` more spaces than one before each of them. */
  function Loose(params: seq<string>, trailing: Option<string>, gaps: seq<nat>): string
    requires |gaps| >= |params| + 1
  {
    if params != [] then " " + Spaces(gaps[0]) + params[0] + Loose(params[1..], trailing, gaps[1..])
    else if trailing.None? then ""
    else " " + Spaces(gaps[0]) + (":" + trailing.value)
  }

  /** A line with any number of spaces in front of it and of its parts. */
  function LooseLine(line: Line, lead: nat, afterTags: nat, afterPrefix: nat, gaps: seq<nat>): string
    requires |gaps| >= |line.params| + 1
  {
    var head := PrefixPart(line.prefix, afterPrefix) + (line.command.name + Loose(line.params, line.trailing, gaps));
    Spaces(lead) + (TagPart(TagText(line.tags), afterTags) + (head + CRLF))
  }

  lemma {:induction false} SpacesTrimmed(n: nat, s: string)
    ensures TrimStart(Spaces(n) + s) == TrimStart(s) && Trim(Spaces(n) + s) == Trim(s)
  {
    if n == 0 {
      assert "" + s == s;
    } else {
      assert (Spaces(n) + s)[1..] == Spaces(n - 1) + s;
      assert (Spaces(n) + s)[0] == ' ';
      SpacesTrimmed(n - 1, s);
    }
  }

  lemma LooseStart(params: seq<string>, trailing: Option<string>, gaps: seq<nat>)
    requires |gaps| >= |params| + 1
    ensures var text := Loose(params, trailing, gaps); text == "" || text[0] == ' '
  {
  }

  /** Words and a free text are read off the text whatever the spaces between them. */
  lemma {:induction false} LooseParams(params: seq<string>, trailing: Option<string>, gaps: seq<nat>, room: nat)
    requires |gaps| >= |params| + 1 && ParamsFit(params, trailing, room)
    ensures ParseParams(Trim(Loose(params, trailing, gaps)), room) == Given(params, trailing)
    decreases params
  {
    hide Loose, Trim, Middle, ParseParams, Trailing;
    if params == [] {
      LooseLast(trailing, gaps, room);
    } else {
      LooseNext(params, trailing, gaps, room);
      assert forall k :: 0 <= k < |params[1..]| ==> params[1..][k] == params[k + 1];
      LooseParams(params[1..], trailing, gaps[1..], room - 1);
      assert Given(params, trailing) == [params[0]] + Given(params[1..], trailing);
    }
  }

  lemma LooseLast(trailing: Option<string>, gaps: seq<nat>, room: nat)
    requires gaps != [] && (trailing.Some? ==> Trailing(trailing.value) && room > 0)
    ensures ParseParams(Trim(Loose([], trailing, gaps)), room) == Given([], trailing)
  {
    if trailing.Some? {
      LastLoose(trailing.value, gaps[0]);
      hide Trim;
      assert (":" + trailing.value)[1..] == trailing.value;
    }
  }

  lemma LooseNext(params: seq<string>, trailing: Option<string>, gaps: seq<nat>, room: nat)
    requires |gaps| >= |params| + 1 && params != [] && Middle(params[0]) && room > 0
    ensures ParseParams(Trim(Loose(params, trailing, gaps)), room)
         == [params[0]] + ParseParams(Trim(Loose(params[1..], trailing, gaps[1..])), room - 1)
  {
    var p, more := params[0], Loose(params[1..], trailing, gaps[1..]);
    LooseStart(params[1..], trailing, gaps[1..]);
    LooseUnfold(params, trailing, gaps);
    hide Loose, Trim, TrimStart, TrimEnd, ParseWord;
    LooseFirst(p, more, gaps[0]);
    assert (p + TrimEnd(more))[0] == p[0];
  }

  lemma LooseUnfold(params: seq<string>, trailing: Option<string>, gaps: seq<nat>)
    requires |gaps| >= |params| + 1 && params != []
    ensures Loose(params, trailing, gaps) == " " + Spaces(gaps[0]) + params[0] + Loose(params[1..], trailing, gaps[1..])
  {
  }

  lemma OneMoreSpace(n: nat, s: string)
    ensures Trim(" " + Spaces(n) + s) == Trim(s)
  {
    assert " " + Spaces(n) == Spaces(n + 1);
    SpacesTrimmed(n + 1, s);
  }

  lemma LooseFirst(p: string, more: string, gap: nat)
    requires Middle(p) && (more == "" || more[0] == ' ')
    ensures Trim(" " + Spaces(gap) + p + more) == p + TrimEnd(more)
    ensures ParseWord(p + TrimEnd(more)) == (p, Trim(more))
  {
    Assoc(" " + Spaces(gap), p, more);
    OneMoreSpace(gap, p + more);
    TrimFrom(p, more);
    CutAtEnd(more);
    WordThenText(p, more, TrimEnd(more));
  }

  lemma LastLoose(free: string, gap: nat)
    requires Trailing(free)
    ensures Trim(" " + Spaces(gap) + (":" + free)) == ":" + free
  {
    OneMoreSpace(gap, ":" + free);
    TrimEndPrepend(":", free);
    assert (":" + free)[0] == ':';
  }

  function TagPart(tags: string, gap: nat): string
  {
    if tags == "" then "" else "@" + tags + " " + Spaces(gap)
  }

  function PrefixPart(prefix: string, gap: nat): string
  {
    if prefix == "" then "" else ":" + prefix + " " + Spaces(gap)
  }

  lemma LeadOff(lead: nat, rest: string)
    requires rest != "" && !IsWhitespace(rest[0])
    ensures TrimStart(Spaces(lead) + rest) == rest
  {
    SpacesTrimmed(lead, rest);
  }

  lemma LooseTagsOff(tags: string, gap: nat, head: string)
    requires Solid(tags) && head != "" && !IsWhitespace(head[0]) && head[0] != '@'
    ensures var rest := TagPart(tags, gap) + (head + CRLF);
            && rest != "" && !IsWhitespace(rest[0])
            && ParseTagPart(rest) == (tags, if tags == "" then head + CRLF else TrimEnd(head))
  {
    assert (head + CRLF)[0] == head[0];
    if tags == "" {
      assert "" + (head + CRLF) == head + CRLF;
    } else {
      SomeTagsOff(tags, gap, head);
    }
  }

  lemma SomeTagsOff(tags: string, gap: nat, head: string)
    requires Solid(tags) && tags != "" && head != "" && !IsWhitespace(head[0])
    ensures ParseTagPart(TagPart(tags, gap) + (head + CRLF)) == (tags, TrimEnd(head))
    ensures (TagPart(tags, gap) + (head + CRLF))[0] == '@'
  {
    var word, rest := "@" + tags, Spaces(gap) + (head + CRLF);
    assert word[1..] == tags;
    assert TagPart(tags, gap) + (head + CRLF) == word + " " + rest;
    ParseWordSpace(word, rest);
    hide ParseWord, TrimEnd;
    SpacesTrimmed(gap, head + CRLF);
    TrimEndTail(head, CRLF);
    assert (head + CRLF)[0] == head[0];
  }

  lemma LoosePrefixOff(prefix: string, gap: nat, name: string, text: string, cut: string)
    requires Solid(prefix) && Middle(name) && (text == "" || text[0] == ' ')
    requires cut == text + CRLF || cut == TrimEnd(text)
    ensures var (p, rest) := ParsePrefix(PrefixPart(prefix, gap) + (name + cut));
            p == (if prefix == "" then None else Some(prefix)) && InHand(rest, name, text)
  {
    CutAtEnd(text);
    if prefix == "" {
      assert "" + (name + cut) == name + cut;
      assert (name + cut)[0] == name[0];
    } else {
      assert PrefixPart(prefix, gap) + (name + cut) == PrefixText(prefix) + (Spaces(gap) + (name + cut));
      WithPrefix(prefix, Spaces(gap) + (name + cut));
      SpacesTrimmed(gap, name + cut);
      hide ParsePrefix, TrimStart, TrimEnd, SameTail;
      TrimCut(name, text, cut);
    }
  }

  /**
   * A line whose parameters are words and at most one free text is read the same with any number of
   * spaces in front of it and between its parts.
   */
  lemma SpacesDoNotMatter(line: Line, lead: nat, afterTags: nat, afterPrefix: nat, gaps: seq<nat>)
    requires |gaps| >= |line.params| + 1 && NUL !in LooseLine(line, lead, afterTags, afterPrefix, gaps)
    requires Headed(line) && Recognised(line.command) && ParamsFit(line.params, line.trailing, PARAMS_LENGTH)
    ensures Parse(LooseLine(line, lead, afterTags, afterPrefix, gaps)) == Some(Meaning(line))
  {
    hide Loose, TagPart, PrefixPart, ParsePrefix, ParseTagPart, ParseWord, TrimStart, TrimEnd, Trim, FindCommand, Solid,
         Middle;
    var text, name, tags := Loose(line.params, line.trailing, gaps), line.command.name, TagText(line.tags);
    var head := PrefixPart(line.prefix, afterPrefix) + (name + text);
    LooseStart(line.params, line.trailing, gaps);
    LooseParams(line.params, line.trailing, gaps, PARAMS_LENGTH);
    HeadStart(line.prefix, afterPrefix, name, text);
    LooseTagsOff(tags, afterTags, head);
    LeadOff(lead, TagPart(tags, afterTags) + (head + CRLF));
    HeadOff(line.prefix, afterPrefix, name, text, tags == "");
    var rest := TagPart(tags, afterTags) + (head + CRLF);
    assert NUL in rest ==> NUL in Spaces(lead) + rest;
    assert name != "" by { WordsAreSomething(name); }
    assert Given(line.params, line.trailing) == AllParams(line);
  }

  lemma WordsAreSomething(name: string)
    requires Middle(name)
    ensures name != ""
  {
  }

  lemma HeadStart(prefix: string, gap: nat, name: string, text: string)
    requires Middle(name) && name[0] != '@'
    ensures var head := PrefixPart(prefix, gap) + (name + text); head != "" && !IsWhitespace(head[0]) && head[0] != '@'
  {
  }

  /** Prefix and command come off the rest of a line, whole or trimmed. */
  lemma HeadOff(prefix: string, gap: nat, name: string, text: string, whole: bool)
    requires Solid(prefix) && Middle(name) && (text == "" || text[0] == ' ')
    ensures var head := PrefixPart(prefix, gap) + (name + text);
            var (p, rest) := ParsePrefix(if whole then head + CRLF else TrimEnd(head));
            p == (if prefix == "" then None else Some(prefix)) && ParseWord(rest) == (name, Trim(text))
  {
    var cut := if whole then text + CRLF else TrimEnd(text);
    HeadCut(PrefixPart(prefix, gap), name, text);
    LoosePrefixOff(prefix, gap, name, text, cut);
    hide ParsePrefix, ParseWord, TrimStart, TrimEnd, Trim, SameTail, Solid;
    var rest := ParsePrefix(PrefixPart(prefix, gap) + (name + cut)).1;
    var kept :| SameTail(text, kept) && rest == name + kept;
    WordThenText(name, text, kept);
  }

  lemma HeadCut(prefix: string, name: string, text: string)
    requires name != "" && !IsWhitespace(name[|name| - 1])
    ensures prefix + (name + text) + CRLF == prefix + (name + (text + CRLF))
    ensures TrimEnd(prefix + (name + text)) == prefix + (name + TrimEnd(text))
  {
    Assoc(prefix, name, text);
    TrimEndPrepend(prefix + name, text);
    Assoc(prefix, name, TrimEnd(text));
  }
}
