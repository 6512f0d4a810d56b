/**
 * Printing a message and parsing it again: which messages come back, exactly
 * (ellidri-tokens/src/buffers.rs against ellidri-tokens/src/message.rs).
 */
module RoundTrip {
  import opened Text
  import opened Names
  import opened Tags
  import opened Messages

  // ---- which messages survive

  /** Ends in no white space and holds neither a space nor a NUL. */
  predicate Solid(w: string)
  {
    ' ' !in w && NUL !in w && (w != "" ==> !IsWhitespace(w[|w| - 1]))
  }

  predicate Word(w: string)
  {
    w != "" && Solid(w) && !IsWhitespace(w[0])
  }

  /** A parameter that stays one word. */
  predicate Middle(p: string)
  {
    Word(p) && p[0] != ':'
  }

  predicate Trailing(t: string)
  {
    NUL !in t && (t != "" ==> !IsWhitespace(t[|t| - 1]))
  }

  /** Tags, prefix and command that can be told apart from what follows them. */
  predicate Headed(line: Line)
  {
    && Solid(TagText(line.tags))
    && Solid(line.prefix)
    && Middle(line.command.name) && line.command.name[0] != '@'
  }

  /** The word of the command stands for it and for nothing else. */
  predicate Recognised(command: Command)
  {
    FindCommand(command.name, COMMANDS) == command
  }

  /** Words first, then at most one free text, and not too many of them. */
  predicate ParamsFit(params: seq<string>, trailing: Option<string>, room: nat)
  {
    && (forall k :: 0 <= k < |params| ==> Middle(params[k]))
    && (trailing.Some? ==> Trailing(trailing.value))
    && |params| + (if trailing.Some? then 1 else 0) <= room
  }

  function Given(params: seq<string>, trailing: Option<string>): seq<string>
  {
    params + if trailing.Some? then [trailing.value] else []
  }

  // ---- trimming

  lemma {:induction false} TrimEndTail(s: string, tail: string)
    requires forall k :: 0 <= k < |tail| ==> IsWhitespace(tail[k])
    ensures TrimEnd(s + tail) == TrimEnd(s)
  {
    if tail == "" {
      assert s + tail == s;
    } else {
      assert (s + tail)[..|s + tail| - 1] == s + tail[..|tail| - 1];
      TrimEndTail(s, tail[..|tail| - 1]);
    }
  }

  /** Trimming stops at the last character that is no white space. */
  lemma {:induction false} TrimEndPrepend(w: string, s: string)
    requires w != "" && !IsWhitespace(w[|w| - 1])
    ensures TrimEnd(w + s) == w + TrimEnd(s)
  {
    if s == "" {
      assert w + s == w;
    } else if IsWhitespace(s[|s| - 1]) {
      assert (w + s)[..|w + s| - 1] == w + s[..|s| - 1];
      TrimEndPrepend(w, s[..|s| - 1]);
    }
  }

  lemma {:induction false} TrimEndShape(s: string)
    ensures TrimEnd(s) <= s
    ensures TrimEnd(s) != "" ==> !IsWhitespace(TrimEnd(s)[|TrimEnd(s)| - 1])
    ensures forall c :: c in s && !IsWhitespace(c) ==> c in TrimEnd(s)
    ensures TrimEnd(TrimEnd(s)) == TrimEnd(s)
  {
    if s != "" && IsWhitespace(s[|s| - 1]) {
      TrimEndShape(s[..|s| - 1]);
      assert s == s[..|s| - 1] + [s[|s| - 1]];
    }
  }

  lemma {:induction false} TrimStartShape(s: string)
    ensures TrimStart(s) != "" ==> !IsWhitespace(TrimStart(s)[0])
    ensures |TrimStart(s)| <= |s| && TrimStart(s) == s[|s| - |TrimStart(s)|..]
    ensures forall c :: c in s && !IsWhitespace(c) ==> c in TrimStart(s)
  {
    if s != "" && IsWhitespace(s[0]) {
      TrimStartShape(s[1..]);
    }
  }

  lemma TrimShape(s: string)
    ensures Trimmed(Trim(s)) && |Trim(s)| <= |s|
    ensures forall c :: c in Trim(s) ==> c in s
    ensures forall c :: c in s && !IsWhitespace(c) ==> c in Trim(s)
    ensures |Trim(s)| == |s| ==> Trim(s) == s
  {
    TrimStartShape(s);
    TrimEndShape(TrimStart(s));
  }

  /** The two ends are trimmed in either order. */
  lemma {:induction false} TrimCommutes(s: string)
    ensures Trim(s) == TrimStart(TrimEnd(s))
  {
    if s != "" {
      if IsWhitespace(s[0]) {
        TrimCommutes(s[1..]);
        EndThenStart(s);
      } else {
        TrimEndShape(s);
      }
    }
  }

  lemma {:induction false} EndThenStart(s: string)
    requires s != "" && IsWhitespace(s[0])
    ensures TrimStart(TrimEnd(s)) == TrimStart(TrimEnd(s[1..]))
    decreases |s|
  {
    if IsWhitespace(s[|s| - 1]) {
      if |s| > 1 {
        assert s[1..][..|s| - 2] == s[..|s| - 1][1..];
        EndThenStart(s[..|s| - 1]);
      }
    } else {
      assert TrimEnd(s[1..]) == s[1..];
    }
  }

  // ---- words

  lemma IndexOfAfter(w: string, c: char, rest: string)
    requires c !in w
    ensures IndexOf(w + [c] + rest, c) == |w|
  {
    assert (w + [c] + rest)[|w|] == c;
  }

  /** A word, a space and more text come apart again. */
  lemma ParseWordSpace(w: string, rest: string)
    requires Word(w)
    ensures ParseWord(w + " " + rest) == (w, Trim(rest))
  {
    var s := w + [' '] + rest;
    IndexOfAfter(w, ' ', rest);
    assert s[..|w|] == w && s[|w| + 1..] == rest;
    TrimTrimmed(w);
  }

  lemma ParseWordAlone(w: string, tail: string)
    requires Word(w) && (tail == "" || tail == CRLF)
    ensures ParseWord(w + tail) == (w, "")
  {
    assert ' ' !in w + tail;
    TrimAppend(w, tail);
  }

  /** What trimming may have done to the text after a word. */
  predicate SameTail(text: string, cut: string)
  {
    TrimEnd(cut) == TrimEnd(text) && (cut == "" || cut == CRLF || cut[0] == ' ')
  }

  lemma WordThenText(w: string, text: string, cut: string)
    requires Word(w) && SameTail(text, cut)
    ensures ParseWord(w + cut) == (w, Trim(text))
  {
    TrimCommutes(text);
    TrimCommutes(cut);
    if cut == "" || cut == CRLF {
      ParseWordAlone(w, cut);
      TrimEndTail("", cut);
      assert "" + cut == cut;
    } else {
      assert cut == " " + cut[1..];
      Assoc(w, " ", cut[1..]);
      ParseWordSpace(w, cut[1..]);
    }
  }

  // ---- the parts before the parameters

  lemma {:induction false} ParamsTextStart(params: seq<string>, trailing: Option<string>)
    ensures var text := ParamsText(params, trailing); text == "" || text[0] == ' '
  {
    if params != [] { ParamsTextStart(params[1..], trailing); }
  }

  /** What the parser has in hand once tags and prefix are off: the command and some cut of the parameters' text. */
  ghost predicate InHand(buf: string, name: string, text: string)
  {
    exists cut :: SameTail(text, cut) && buf == name + cut
  }

  lemma CutAtEnd(text: string)
    requires text == "" || text[0] == ' '
    ensures SameTail(text, text) && SameTail(text, text + CRLF) && SameTail(text, TrimEnd(text))
  {
    TrimEndTail(text, CRLF);
    TrimEndShape(text);
  }

  /** Trimming a text that starts with a word trims what follows the word. */
  lemma TrimFrom(w: string, text: string)
    requires w != "" && !IsWhitespace(w[0]) && !IsWhitespace(w[|w| - 1])
    ensures Trim(w + text) == w + TrimEnd(text) && TrimStart(w + text) == w + text
    ensures Trim(w + text + CRLF) == w + TrimEnd(text)
  {
    assert (w + text)[0] == w[0];
    TrimEndPrepend(w, text);
    assert w + text + CRLF == w + (text + CRLF);
    assert (w + (text + CRLF))[0] == w[0];
    TrimEndPrepend(w, text + CRLF);
    TrimEndTail(text, CRLF);
  }

  /** Taking the prefix off, from the start of a line or after the tags. */
  lemma PrefixOff(prefix: string, name: string, text: string, cut: string)
    requires Solid(prefix) && Middle(name) && (text == "" || text[0] == ' ')
    requires cut == text + CRLF || cut == TrimEnd(text)
    ensures var (p, rest) := ParsePrefix(PrefixText(prefix) + (name + cut));
            p == (if prefix == "" then None else Some(prefix)) && InHand(rest, name, text)
  {
    CutAtEnd(text);
    if prefix == "" {
      assert "" + (name + cut) == name + cut;
      assert (name + cut)[0] == name[0];
    } else {
      WithPrefix(prefix, name + cut);
      hide ParsePrefix, TrimStart, TrimEnd, SameTail;
      TrimCut(name, text, cut);
    }
  }

  lemma WithPrefix(prefix: string, rest: string)
    requires Solid(prefix) && prefix != ""
    ensures ParsePrefix(PrefixText(prefix) + rest) == (Some(prefix), Trim(rest))
  {
    hide ParseWord, Trim;
    var word := ":" + prefix;
    assert word[1..] == prefix;
    ParseWordSpace(word, rest);
  }

  lemma TrimCut(name: string, text: string, cut: string)
    requires Middle(name) && (cut == text + CRLF || cut == TrimEnd(text))
    ensures Trim(name + cut) == name + TrimEnd(text)
  {
    TrimFrom(name, cut);
    TrimEndTail(text, CRLF);
    TrimEndShape(text);
  }

  lemma TagsOff(tags: string, head: string, text: string)
    requires Solid(tags) && head != "" && !IsWhitespace(head[0]) && !IsWhitespace(head[|head| - 1]) && head[0] != '@'
    ensures var printed := (if tags == "" then "" else "@" + tags + " ") + (head + text) + CRLF;
            && TrimStart(printed) == printed && printed != ""
            && ParseTagPart(printed) == (tags, if tags == "" then head + (text + CRLF) else head + TrimEnd(text))
  {
    hide ParseWord;
    Assoc(head, text, CRLF);
    if tags == "" {
      assert "" + (head + text) + CRLF == head + (text + CRLF);
      assert (head + (text + CRLF))[0] == head[0];
    } else {
      var word := "@" + tags;
      assert word[1..] == tags;
      Assoc(word + " ", head + text, CRLF);
      ParseWordSpace(word, head + text + CRLF);
      TrimFrom(head, text);
    }
  }

  /** Whatever the parameters: a printed line is cut into its tags, prefix, command and the parameters read off its end. */
  lemma LineCut(line: Line)
    requires Headed(line)
    ensures var text := ParamsText(line.params, line.trailing);
            Tokenize(Print(line)) == if NUL in Print(line) then None else
              Some(Tokens(TagText(line.tags), if line.prefix == "" then None else Some(line.prefix), line.command.name,
                          Read(line.params, line.trailing, PARAMS_LENGTH)))
  {
    var text, tags, name := ParamsText(line.params, line.trailing), TagText(line.tags), line.command.name;
    ParamsTextStart(line.params, line.trailing);
    hide ParamsText, TagText, ParseWord, ParsePrefix, ParseTagPart, TrimStart, TrimEnd;
    var head := PrefixText(line.prefix) + name;
    HeadShape(line.prefix, name);
    Assoc(PrefixText(line.prefix), name, text);
    TagsOff(tags, head, text);
    var cut := if tags == "" then text + CRLF else TrimEnd(text);
    Assoc(PrefixText(line.prefix), name, cut);
    PrefixOff(line.prefix, name, text, cut);
    var rest := ParsePrefix(PrefixText(line.prefix) + (name + cut)).1;
    var end :| SameTail(text, end) && rest == name + end;
    WordThenText(name, text, end);
  }

  lemma HeadShape(prefix: string, name: string)
    requires Middle(name) && name[0] != '@'
    ensures var head := PrefixText(prefix) + name;
            head != "" && !IsWhitespace(head[0]) && !IsWhitespace(head[|head| - 1]) && head[0] != '@'
  {
  }

  // ---- the parameters

  /** The parameters read off the text of the given ones. */
  function Read(params: seq<string>, trailing: Option<string>, room: nat): seq<string>
  {
    ParseParams(Trim(ParamsText(params, trailing)), room)
  }

  /** A first parameter that is a word is read off, and what is left is the text of the others. */
  lemma ReadFirst(params: seq<string>, trailing: Option<string>, room: nat)
    requires params != [] && Middle(params[0]) && room > 0
    ensures Read(params, trailing, room) == [params[0]] + Read(params[1..], trailing, room - 1)
    ensures NUL in ParamsText(params, trailing) <==> NUL in ParamsText(params[1..], trailing)
  {
    hide TrimStart, TrimEnd, ParseWord;
    var p, more := params[0], ParamsText(params[1..], trailing);
    TrimTrimmed(p);
    ParamsTextStart(params[1..], trailing);
    ParamFirst(p, more);
    ParseWordOff(p, more);
    assert (p + TrimEnd(more))[0] == p[0];
  }

  /** Words and a free text are read back as they were given. */
  lemma {:induction false} FittingSurvive(params: seq<string>, trailing: Option<string>, room: nat)
    requires ParamsFit(params, trailing, room)
    ensures Read(params, trailing, room) == Given(params, trailing)
    ensures NUL !in ParamsText(params, trailing)
  {
    hide Read, ParamsText;
    if params == [] {
      LastRead(trailing, room);
      if trailing.Some? { NothingTrimmed(trailing.value); }
    } else {
      assert Middle(params[0]);
      ReadFirst(params, trailing, room);
      FittingSurvive(params[1..], trailing, room - 1);
      assert Given(params, trailing) == [params[0]] + Given(params[1..], trailing);
    }
  }

  lemma TrimSpace(s: string)
    ensures Trim(" " + s) == Trim(s)
  {
  }

  lemma TrailingText(t: string)
    ensures Trim(" :" + t) == ":" + TrimEnd(t)
  {
    assert " :" + t == " " + (":" + t);
    TrimSpace(":" + t);
    hide TrimEnd, TrimStart;
    TrimFrom(":", t);
  }

  /** A free text is read back without the white space at its end. */
  lemma LastRead(trailing: Option<string>, room: nat)
    ensures ParamsText([], trailing) == if trailing.Some? then " :" + trailing.value else ""
    ensures Read([], trailing, room) == if trailing.None? || room == 0 then [] else [TrimEnd(trailing.value)]
  {
    if trailing.Some? {
      TrailingText(trailing.value);
      assert (":" + TrimEnd(trailing.value))[1..] == TrimEnd(trailing.value);
    }
  }

  lemma NothingTrimmed(t: string)
    requires Trailing(t)
    ensures TrimEnd(t) == t && NUL !in " :" + t
  {
  }

  /** The text of a parameter that is not blank, and what follows it, once trimmed. */
  lemma ParamFirst(p: string, more: string)
    ensures Trim(p) != "" ==> Trim(ParamText(p) + more) == Trim(p) + TrimEnd(more)
    ensures Trim(p) == "" ==> Trim(ParamText(p) + more) == Trim(more)
  {
    if Trim(p) == "" {
      assert "" + more == more;
    } else {
      var t := Trim(p);
      TrimShape(p);
      assert " " + t + more == " " + (t + more);
      TrimSpace(t + more);
      TrimFrom(t, more);
    }
  }

  lemma ParseWordOff(p: string, more: string)
    requires Word(p) && (more == "" || more[0] == ' ')
    ensures ParseWord(p + TrimEnd(more)) == (p, Trim(more))
  {
    CutAtEnd(more);
    WordThenText(p, more, TrimEnd(more));
  }

  /** A word read off a text holds no space, and is all of the text's first word. */
  lemma WordHasNoSpace(t: string, m: string)
    requires t != "" && !IsWhitespace(t[0]) && ' ' in t
    ensures ' ' !in ParseWord(t + m).0
  {
    var i := IndexOf(t + m, ' ');
    forall j | 0 <= j < i ensures (t + m)[j] != ' ' {
      assert (t + m)[j] == (t + m)[..i][j];
    }
    var k :| 0 <= k < |t| && t[k] == ' ';
    assert (t + m)[k] == ' ';
    TrimShape((t + m)[..i]);
    assert t[0] == (t + m)[..i][0];
  }

  /** The first parameter read is empty, or shows a character that is no white space. */
  lemma FirstReadShows(buf: string, room: nat)
    requires Trimmed(buf)
    ensures var read := ParseParams(buf, room);
            read == [] || (read == [""] && buf == ":") || exists c :: c in read[0] && !IsWhitespace(c)
  {
  }

  /** Only words, and a free text at the end, are read back as they were given. */
  lemma {:induction false} OnlyFittingSurvive(params: seq<string>, trailing: Option<string>, room: nat)
    requires Read(params, trailing, room) == Given(params, trailing)
    requires NUL !in ParamsText(params, trailing)
    ensures ParamsFit(params, trailing, room)
  {
    hide Read, ParamsText;
    if params == [] {
      LastRead(trailing, room);
      if trailing.Some? {
        TrimEndShape(trailing.value);
        NulInTrailing(trailing.value);
        assert Given(params, trailing)[0] == trailing.value;
        assert room > 0 && TrimEnd(trailing.value) == trailing.value;
      }
    } else {
      FirstFits(params, trailing, room);
      ReadFirst(params, trailing, room);
      var read := Read(params[1..], trailing, room - 1);
      assert ([params[0]] + read)[1..] == read;
      assert Given(params, trailing)[1..] == Given(params[1..], trailing);
      OnlyFittingSurvive(params[1..], trailing, room - 1);
    }
  }

  lemma NulInTrailing(t: string)
    ensures NUL in t ==> NUL in " :" + t
  {
  }

  /** A blank parameter is not written at all. */
  lemma BlankIsLost(params: seq<string>, trailing: Option<string>, room: nat)
    requires params != [] && Trim(params[0]) == ""
    ensures Read(params, trailing, room) != Given(params, trailing)
  {
    hide ParseParams, ParamText, Trimmed, Trim;
    var p, more := params[0], ParamsText(params[1..], trailing);
    TrimShape(p);
    ParamFirst(p, more);
    assert Given(params, trailing)[0] == p;
    BlankReads(p, more, room);
  }

  /** Nothing that is read equals a blank parameter, but for an empty one at the very end. */
  lemma BlankReads(p: string, more: string, room: nat)
    requires Trim(p) == ""
    ensures var read := ParseParams(Trim(more), room); read != [] && read[0] == p ==> read == [""] && Trim(more) == ":"
  {
    TrimShape(p);
    TrimShape(more);
    FirstReadShows(Trim(more), room);
  }

  /** The text in hand when the first parameter is not blank. */
  lemma FirstInHand(params: seq<string>, trailing: Option<string>)
    requires params != [] && Trim(params[0]) != ""
    ensures var t, more := Trim(params[0]), ParamsText(params[1..], trailing);
            && Trim(ParamsText(params, trailing)) == t + TrimEnd(more)
            && (more == "" || more[0] == ' ')
  {
    ParamsTextStart(params[1..], trailing);
    ParamFirst(params[0], ParamsText(params[1..], trailing));
  }

  /** A parameter that starts with a colon is read as the rest of the line. */
  lemma ColonIsLost(params: seq<string>, trailing: Option<string>, room: nat)
    requires params != [] && Trim(params[0]) != "" && Trim(params[0])[0] == ':'
    ensures Read(params, trailing, room) != Given(params, trailing)
  {
    var p, t, more := params[0], Trim(params[0]), ParamsText(params[1..], trailing);
    FirstInHand(params, trailing);
    TrimShape(p);
    hide Trim, TrimStart;
    var buf := t + TrimEnd(more);
    assert buf[0] == ':';
    assert |params| == 1 ==> params[1..] == [];
    assert |params| == 1 && trailing.None? ==> buf == t;
    assert Given(params, trailing)[0] == p;
  }

  /** A parameter with a space in it is read as several. */
  lemma SpaceIsLost(params: seq<string>, trailing: Option<string>, room: nat)
    requires params != [] && Trim(params[0]) != "" && Trim(params[0])[0] != ':' && ' ' in Trim(params[0])
    ensures Read(params, trailing, room) != Given(params, trailing)
  {
    var p, t, more := params[0], Trim(params[0]), ParamsText(params[1..], trailing);
    FirstInHand(params, trailing);
    TrimShape(p);
    WordHasNoSpace(t, TrimEnd(more));
    hide Trim, TrimStart, TrimEnd, ParseWord;
    assert (t + TrimEnd(more))[0] == t[0];
    assert Given(params, trailing)[0] == p;
  }

  lemma FirstFits(params: seq<string>, trailing: Option<string>, room: nat)
    requires params != []
    requires Read(params, trailing, room) == Given(params, trailing)
    requires NUL !in ParamsText(params, trailing)
    ensures Middle(params[0]) && room > 0
  {
    var p, t, more := params[0], Trim(params[0]), ParamsText(params[1..], trailing);
    assert Given(params, trailing)[0] == p;
    if t == "" {
      BlankIsLost(params, trailing, room);
    } else if t[0] == ':' {
      ColonIsLost(params, trailing, room);
    } else if ' ' in t {
      SpaceIsLost(params, trailing, room);
    } else {
      FirstInHand(params, trailing);
      TrimShape(p);
      assert NUL !in t;
      ParseWordOff(t, more);
      hide Trim, TrimStart, TrimEnd, ParseWord;
      assert (t + TrimEnd(more))[0] == t[0];
    }
  }

  // ---- the command word

  predicate Upper(s: string)
  {
    forall i :: 0 <= i < |s| ==> 'A' <= s[i] <= 'Z'
  }

  lemma CommandsAreUpper()
    ensures forall k :: 0 <= k < |COMMANDS| ==> Upper(COMMANDS[k])
  {
  }

  lemma UpperNamesDiffer(a: string, b: string)
    requires Upper(a) && Upper(b) && SameName(a, b)
    ensures a == b
  {
  }

  lemma {:induction false} FindOwnName(name: string, table: seq<string>)
    requires name in table && forall k :: 0 <= k < |table| ==> Upper(table[k])
    ensures FindCommand(name, table) == Known(name)
  {
    if SameName(name, table[0]) {
      assert Upper(name);
      UpperNamesDiffer(name, table[0]);
    } else {
      FindOwnName(name, table[1..]);
    }
  }

  lemma {:induction false} FindOther(name: string, table: seq<string>)
    requires FindCommand(name, table).Other?
    ensures FindCommand(name, table) == Other(name)
  {
    if table != [] { FindOther(name, table[1..]); }
  }

  lemma CommandRoundTrip(command: Command)
    requires command.Known? ==> command.name in COMMANDS
    requires command.Other? ==> FindCommand(command.name, COMMANDS).Other?
    ensures Recognised(command)
  {
    if command.Known? {
      CommandsAreUpper();
      FindOwnName(command.name, COMMANDS);
    } else {
      FindOther(command.name, COMMANDS);
    }
  }

  lemma {:induction false} FoundSays(word: string, table: seq<string>)
    ensures var found := FindCommand(word, table);
            && (found.Known? ==> found.name in table && SameName(word, found.name))
            && (found.Other? ==> found.name == word && forall name :: name in table ==> !SameName(word, name))
  {
    if table != [] && !SameName(word, table[0]) {
      FoundSays(word, table[1..]);
    }
  }

  /** A word is a command of the table exactly when it spells its name, in upper or lower case or both. */
  lemma CommandIff(word: string, name: string)
    ensures FindCommand(word, COMMANDS) == Known(name) <==> name in COMMANDS && SameName(word, name)
    ensures FindCommand(word, COMMANDS) == Other(word) <==> forall n :: n in COMMANDS ==> !SameName(word, n)
  {
    FoundSays(word, COMMANDS);
    CommandsAreUpper();
    hide FindCommand;
    if name in COMMANDS && SameName(word, name) {
      var found := FindCommand(word, COMMANDS).name;
      assert Upper(name) && Upper(found) && SameName(name, found);
      UpperNamesDiffer(name, found);
    }
  }

  /** A line whose command is spelled in any case is read as that command. */
  lemma AnyCaseIsRead(line: Line, name: string)
    requires Headed(line) && name in COMMANDS && SameName(line.command.name, name) && NUL !in Print(line)
    ensures Parse(Print(line)).Some? && Parse(Print(line)).value.command == Known(name)
  {
    LineCut(line);
    CommandIff(line.command.name, name);
    hide Print, ParamsText, Read, Tokenize, TagText, Headed, FindCommand;
  }

  // ---- the whole message

  lemma {:induction false} NulShows(params: seq<string>, trailing: Option<string>)
    requires exists p :: p in Given(params, trailing) && NUL in p
    ensures NUL in ParamsText(params, trailing)
  {
    if params != [] {
      if NUL in params[0] {
        TrimShape(params[0]);
      } else {
        assert Given(params, trailing) == [params[0]] + Given(params[1..], trailing);
        NulShows(params[1..], trailing);
      }
    }
  }

  /**
   * For every line with a proper head: printing and parsing gives the same tags, prefix, command and
   * parameters exactly when the command is one that its word stands for, the parameters are words, at
   * most one free text ends them, and there are no more of them than the parser has room for.
   */
  lemma PrintParseIff(line: Line)
    requires Headed(line)
    ensures Parse(Print(line)) == Some(Meaning(line))
            <==> Recognised(line.command) && ParamsFit(line.params, line.trailing, PARAMS_LENGTH)
  {
    LineCut(line);
    var text := ParamsText(line.params, line.trailing);
    NulInPrint(line);
    hide Print, ParamsText, Read, Tokenize, TagText, Headed, FindCommand;
    if ParamsFit(line.params, line.trailing, PARAMS_LENGTH) {
      FittingSurvive(line.params, line.trailing, PARAMS_LENGTH);
    }
    if Parse(Print(line)) == Some(Meaning(line)) {
      OnlyFittingSurvive(line.params, line.trailing, PARAMS_LENGTH);
    }
  }

  lemma NulInPrint(line: Line)
    requires Headed(line)
    ensures NUL in Print(line) <==> NUL in ParamsText(line.params, line.trailing)
  {
  }
}
