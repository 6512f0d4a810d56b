/** The MODE notice as the line that members receive (the end of `cmd_mode_channel_set`, src/state/v1.rs). */
module Wire {
  import opened Text
  import opened Messages
  import opened Modes
  import C = Channels
  import RT = RoundTrip

  /** The line sent for some applied changes. */
  function NoticeLine(source: string, chan: string, applied: seq<Change>): Line
  {
    Line([], source, Known("MODE"), [chan, PrintModes(applied, None)] + PrintParams(applied), None)
  }

  predicate Sign(c: char) { c == '+' || c == '-' }

  /** Printed letters are letters and signs. */
  lemma {:induction false} PrintedLetters(applied: seq<Change>, last: Option<bool>)
    ensures forall c :: c in PrintModes(applied, last) ==> Sign(c) || 'A' <= c <= 'z'
    ensures applied != [] ==> PrintModes(applied, last) != ""
  {
    if applied != [] {
      var c := applied[0];
      PrintedLetters(applied[1..], Some(c.Value()));
      assert 'A' <= c.Symbol() <= 'z';
    }
  }

  lemma PrintedModesAreWord(applied: seq<Change>)
    requires applied != []
    ensures RT.Middle(PrintModes(applied, None))
  {
    PrintedLetters(applied, None);
    var text := PrintModes(applied, None);
    assert text[0] in text && text[|text| - 1] in text;
  }

  /** Every parameter of the notice stays one word, and there is room for them. */
  predicate ParamsStayWords(applied: seq<Change>)
  {
    |PrintParams(applied)| <= PARAMS_LENGTH - 2 && forall p :: p in PrintParams(applied) ==> RT.Middle(p)
  }

  lemma NoticeParams(source: string, chan: string, applied: seq<Change>)
    requires RT.Middle(chan) && applied != []
    ensures var line := NoticeLine(source, chan, applied);
            RT.ParamsFit(line.params, None, PARAMS_LENGTH) <==> ParamsStayWords(applied)
  {
    PrintedModesAreWord(applied);
    hide PrintModes, PrintParams, RT.Middle;
    var params, given := NoticeLine(source, chan, applied).params, PrintParams(applied);
    assert params[2..] == given;
    if RT.ParamsFit(params, None, PARAMS_LENGTH) {
      forall p | p in given ensures RT.Middle(p) {
        var k :| 0 <= k < |given| && given[k] == p;
        assert params[k + 2] == p;
      }
    }
    if ParamsStayWords(applied) {
      forall k | 0 <= k < |params| ensures RT.Middle(params[k]) {
        if k >= 2 { assert params[k] == given[k - 2]; }
      }
    }
  }

  lemma NoticeHeaded(source: string, chan: string, applied: seq<Change>)
    requires RT.Solid(source)
    ensures RT.Headed(NoticeLine(source, chan, applied))
  {
  }

  lemma ModeRecognised()
    ensures RT.Recognised(Known("MODE"))
  {
    hide FindCommand, RT.Recognised;
    assert "MODE" in COMMANDS;
    RT.CommandRoundTrip(Known("MODE"));
  }

  /**
   * A member reads the notice off its line unaltered exactly when every parameter of an applied change
   * is a word and there is room for them all; it then reads the applied changes, in order.
   */
  lemma NoticeOverTheWire(source: string, chan: string, applied: seq<Change>)
    requires RT.Solid(source) && RT.Middle(chan) && applied != [] && forall c :: c in applied ==> c.Printable()
    ensures var line := NoticeLine(source, chan, applied);
            && (Parse(Print(line)) == Some(Meaning(line)) <==> ParamsStayWords(applied))
            && (ParamsStayWords(applied) ==>
                  var read := Parse(Print(line)).value.params;
                  |read| >= 2 && read[0] == chan && Query(read[1], read[2..]) == Goods(applied))
  {
    var line := NoticeLine(source, chan, applied);
    NoticeHeaded(source, chan, applied);
    hide FindCommand, RT.Recognised;
    ModeRecognised();
    NoticeParams(source, chan, applied);
    RT.PrintParseIff(line);
    hide Parse, Print, RT.ParamsFit, ParamsStayWords, PrintModes, PrintParams, Query;
    ParsePrinted(applied);
    assert AllParams(line) == line.params;
    assert line.params[2..] == PrintParams(applied);
  }

  // ---- reading the changes back

  /** The changes asked for by the parameters of a MODE message for `chan`. */
  predicate Asks(read: Option<Message>, chan: string, applied: seq<Change>)
  {
    read.Some? && var params := read.value.params;
    |params| >= 2 && params[0] == chan && Query(params[1], params[2..]) == Goods(applied)
  }

  /** Past the room there are only parameters of a bare -k, which asks for itself without one. */
  predicate OnlyBareKeysBeyond(applied: seq<Change>, room: nat)
  {
    applied == [] ||
    (var c, rest := applied[0], applied[1..];
     if c.Param().None? then OnlyBareKeysBeyond(rest, room)
     else if room > 0 then OnlyBareKeysBeyond(rest, room - 1)
     else c == Key(false, "*") && OnlyBareKeysBeyond(rest, 0))
  }

  predicate AllWords(params: seq<string>)
  {
    forall p :: p in params ==> RT.Middle(p)
  }

  /** The line of the notice holds no NUL and its parameters are the channel, the letters, and what is read of the rest. */
  lemma NoticeRead(source: string, chan: string, applied: seq<Change>)
    requires RT.Solid(source) && RT.Middle(chan) && applied != []
    ensures var given := PrintParams(applied);
            var read := Parse(Print(NoticeLine(source, chan, applied)));
            if NUL in ParamsText(given, None) then read.None? else
              read.Some? && read.value.params == [chan, PrintModes(applied, None)] + RT.Read(given, None, PARAMS_LENGTH - 2)
  {
    var line := NoticeLine(source, chan, applied);
    NoticeHeaded(source, chan, applied);
    PrintedModesAreWord(applied);
    hide PrintModes, PrintParams, RT.Middle;
    TwoWordsRead(chan, PrintModes(applied, None), PrintParams(applied));
    hide RT.Read, ParamsText, Print, Tokenize, FindCommand, RT.Headed;
    RT.LineCut(line);
    RT.NulInPrint(line);
  }

  lemma TwoWordsRead(a: string, b: string, given: seq<string>)
    requires RT.Middle(a) && RT.Middle(b)
    ensures RT.Read([a, b] + given, None, PARAMS_LENGTH) == [a, b] + RT.Read(given, None, PARAMS_LENGTH - 2)
    ensures NUL in ParamsText([a, b] + given, None) <==> NUL in ParamsText(given, None)
  {
    hide RT.Read, RT.Middle, ParamsText;
    var all, rest := [a, b] + given, [b] + given;
    assert all[0] == a && all[1..] == rest && rest[0] == b && rest[1..] == given;
    RT.ReadFirst(all, None, PARAMS_LENGTH);
    RT.ReadFirst(rest, None, PARAMS_LENGTH - 1);
    var read := RT.Read(given, None, PARAMS_LENGTH - 2);
    assert [a] + ([b] + read) == [a, b] + read;
  }

  /** What the letters get: the non-empty ones of the parameters read. */
  function Got(given: seq<string>, room: nat): seq<string>
  {
    NonEmptyParams(RT.Read(given, None, room))
  }

  lemma NothingGot(given: seq<string>)
    ensures Got(given, 0) == []
  {
  }

  lemma WordGot(given: seq<string>, room: nat)
    requires given != [] && RT.Middle(given[0]) && room > 0
    ensures Got(given, room) == [given[0]] + Got(given[1..], room - 1)
    ensures NUL in ParamsText(given, None) <==> NUL in ParamsText(given[1..], None)
  {
    RT.ReadFirst(given, None, room);
    hide RT.Read;
    assert ([given[0]] + RT.Read(given[1..], None, room - 1))[1..] == RT.Read(given[1..], None, room - 1);
  }

  /** Words within the room, and bare -k beyond it, serve the letters. */
  lemma {:induction false} WordsServe(applied: seq<Change>, room: nat)
    requires AllWords(PrintParams(applied)) && OnlyBareKeysBeyond(applied, room)
    ensures Serves(applied, Got(PrintParams(applied), room))
    ensures NUL !in ParamsText(PrintParams(applied), None)
    decreases applied
  {
    if applied != [] {
      var c, rest := applied[0], applied[1..];
      var given := PrintParams(applied);
      if c.Param().None? {
        assert given == PrintParams(rest);
        WordsServe(rest, room);
      } else {
        assert given[0] == c.Param().value && given[1..] == PrintParams(rest);
        assert given == [given[0]] + given[1..];
        WordsCons(given[0], given[1..]);
        hide PrintParams, AllWords, RT.Middle, Got, ParamsText;
        if room > 0 {
          WordGot(given, room);
          WordsServe(rest, room - 1);
          var more := Got(given[1..], room - 1);
          assert ([given[0]] + more)[0] == given[0] && ([given[0]] + more)[1..] == more;
        } else {
          NothingGot(given);
          NothingGot(PrintParams(rest));
          WordsServe(rest, 0);
          WordGot(given, 1);
        }
      }
    }
  }

  lemma {:induction false} NothingServesBareKeys(applied: seq<Change>)
    requires Serves(applied, [])
    ensures forall p :: p in PrintParams(applied) ==> p == "*"
    ensures OnlyBareKeysBeyond(applied, 0)
    decreases applied
  {
    if applied != [] { NothingServesBareKeys(applied[1..]); }
  }

  /** How often a character that is no white space stands in a text is not changed by trimming it. */
  lemma {:induction false} TrimStartCounts(s: string, c: char)
    requires !IsWhitespace(c)
    ensures multiset(TrimStart(s))[c] == multiset(s)[c]
  {
    if s != "" && IsWhitespace(s[0]) {
      TrimStartCounts(s[1..], c);
      assert s == [s[0]] + s[1..];
    }
  }

  lemma {:induction false} TrimEndCounts(s: string, c: char)
    requires !IsWhitespace(c)
    ensures multiset(TrimEnd(s))[c] == multiset(s)[c]
  {
    if s != "" && IsWhitespace(s[|s| - 1]) {
      TrimEndCounts(s[..|s| - 1], c);
      assert s == s[..|s| - 1] + [s[|s| - 1]];
    }
  }

  /** Bare keys print no colon. */
  lemma {:induction false} StarsHaveNoColon(given: seq<string>)
    requires forall p :: p in given ==> p == "*"
    ensures ':' !in ParamsText(given, None)
  {
    if given != [] {
      assert given[0] in given && forall p :: p in given[1..] ==> p in given;
      StarsHaveNoColon(given[1..]);
      RT.TrimShape(given[0]);
    }
  }

  /** A parameter that starts with a colon is read as the rest of the line, which it cannot be itself. */
  lemma ColonNotGot(given: seq<string>, room: nat)
    requires given != [] && room > 0 && Trim(given[0]) != "" && Trim(given[0])[0] == ':'
    requires forall p :: p in given[1..] ==> p == "*"
    ensures RT.Read(given, None, room) != [given[0]] && |RT.Read(given, None, room)| == 1
  {
    var p, t, more := given[0], Trim(given[0]), ParamsText(given[1..], None);
    RT.FirstInHand(given, None);
    TrimStartCounts(p, ':');
    TrimEndCounts(TrimStart(p), ':');
    StarsHaveNoColon(given[1..]);
    RT.TrimEndShape(more);
    hide Trim, TrimStart, TrimEnd, ParamsText;
    var m := TrimEnd(more);
    assert ':' !in m;
    assert (t + m)[0] == ':';
    OneColonLess(t, m);
    hide RT.Read;
    assert RT.Read(given, None, room)[0] == (t + m)[1..] by { ColonReadIs(given, room); }
  }

  lemma OneColonLess(t: string, m: string)
    requires t != "" && t[0] == ':' && ':' !in m
    ensures multiset((t + m)[1..])[':'] == multiset(t)[':'] - 1
  {
    assert t == [':'] + t[1..] && (t + m)[1..] == t[1..] + m;
  }

  lemma ColonReadIs(given: seq<string>, room: nat)
    requires given != [] && room > 0 && Trim(given[0]) != "" && Trim(given[0])[0] == ':'
    ensures RT.Read(given, None, room) == [(Trim(given[0]) + TrimEnd(ParamsText(given[1..], None)))[1..]]
  {
    var t, more := Trim(given[0]), ParamsText(given[1..], None);
    RT.FirstInHand(given, None);
    hide Trim, TrimEnd, ParamsText;
    assert (t + TrimEnd(more))[0] == ':';
  }

  lemma NonEmptyFirst(params: seq<string>)
    requires params != []
    ensures params[0] != "" ==> NonEmptyParams(params) != [] && NonEmptyParams(params)[0] == params[0]
    ensures |params| == 1 ==> NonEmptyParams(params) == if params[0] == "" then [] else params
  {
    assert |params| == 1 ==> params[1..] == [];
  }

  /** A first parameter that is served is a word. */
  lemma FirstServedIsWord(given: seq<string>, room: nat)
    requires given != [] && room > 0 && NUL !in ParamsText(given, None) && given[0] != ""
    requires var q := Got(given, room);
             if q == [] then given[0] == "*" else q[0] == given[0] && (|q| == 1 ==> forall p :: p in given[1..] ==> p == "*")
    ensures RT.Middle(given[0])
  {
    var p, t := given[0], Trim(given[0]);
    if t == "" {
      BlankNotGot(given, room);
    } else if t[0] == ':' {
      ColonReads(given, room);
      if forall p :: p in given[1..] ==> p == "*" { ColonNotGot(given, room); }
    } else if ' ' in t {
      SpaceNotGot(given, room);
    } else {
      PlainGot(given, room);
    }
  }

  lemma BlankNotGot(given: seq<string>, room: nat)
    requires given != [] && room > 0 && Trim(given[0]) == "" && given[0] != ""
    ensures var q := Got(given, room); given[0] != "*" && (q != [] ==> q[0] != given[0])
  {
    var p, more := given[0], ParamsText(given[1..], None);
    RT.TrimShape(p);
    RT.ParamFirst(p, more);
    RT.TrimShape(more);
    RT.FirstReadShows(Trim(more), room);
    hide ParseParams, Trim, ParamsText;
    var read := RT.Read(given, None, room);
    if read != [] { NonEmptyFirst(read); }
  }

  lemma ColonReads(given: seq<string>, room: nat)
    requires given != [] && room > 0 && Trim(given[0]) != "" && Trim(given[0])[0] == ':'
    ensures |RT.Read(given, None, room)| == 1 && |Got(given, room)| <= 1
    ensures given[0] != "*" && (Got(given, room) != [] ==> Got(given, room) == RT.Read(given, None, room))
  {
    ColonReadIs(given, room);
    RT.TrimShape(given[0]);
    hide RT.Read, Trim, ParamsText, TrimEnd;
    NonEmptyFirst(RT.Read(given, None, room));
    assert Trim(given[0])[0] in Trim(given[0]);
  }

  lemma SpaceNotGot(given: seq<string>, room: nat)
    requires given != [] && room > 0 && Trim(given[0]) != "" && Trim(given[0])[0] != ':' && ' ' in Trim(given[0])
    ensures Got(given, room) != [] && Got(given, room)[0] != given[0]
  {
    var t, more := Trim(given[0]), ParamsText(given[1..], None);
    RT.FirstInHand(given, None);
    RT.TrimShape(given[0]);
    RT.WordHasNoSpace(t, TrimEnd(more));
    hide Trim, ParamsText, TrimEnd;
    assert (t + TrimEnd(more))[0] == t[0];
    var word := ParseWord(t + TrimEnd(more)).0;
    assert word != "";
    hide ParseWord;
    assert RT.Read(given, None, room)[0] == word;
    NonEmptyFirst(RT.Read(given, None, room));
  }

  lemma PlainGot(given: seq<string>, room: nat)
    requires given != [] && room > 0 && Trim(given[0]) != "" && Trim(given[0])[0] != ':' && ' ' !in Trim(given[0])
    requires NUL !in ParamsText(given, None)
    ensures Got(given, room) != [] && (Got(given, room)[0] == given[0] ==> RT.Middle(given[0]))
  {
    var p, t, more := given[0], Trim(given[0]), ParamsText(given[1..], None);
    RT.FirstInHand(given, None);
    RT.TrimShape(p);
    assert NUL !in t;
    RT.ParseWordOff(t, more);
    hide Trim, TrimEnd, ParseWord;
    assert (t + TrimEnd(more))[0] == t[0];
    assert RT.Read(given, None, room)[0] == t;
    NonEmptyFirst(RT.Read(given, None, room));
  }

  /** Parameters that serve the letters are words, and beyond the room bare -k. */
  lemma {:induction false} ServedAreWords(applied: seq<Change>, room: nat)
    requires forall c :: c in applied ==> c.Printable()
    requires Serves(applied, Got(PrintParams(applied), room)) && NUL !in ParamsText(PrintParams(applied), None)
    ensures AllWords(PrintParams(applied)) && OnlyBareKeysBeyond(applied, room)
    decreases applied
  {
    if applied != [] {
      var c, rest, given := applied[0], applied[1..], PrintParams(applied);
      assert c.Printable();
      if c.Param().None? {
        assert given == PrintParams(rest);
        ServedAreWords(rest, room);
      } else {
        assert given[0] == c.Param().value && given[1..] == PrintParams(rest);
        if room == 0 {
          ServedWithoutRoom(applied);
        } else {
          ServedOneLess(applied, room, given);
          hide PrintParams, AllWords, RT.Middle, Got, Serves;
          ServedAreWords(rest, room - 1);
          WordsCons(given[0], given[1..]);
          assert given == [given[0]] + given[1..];
        }
      }
    }
  }

  lemma ServedOneLess(applied: seq<Change>, room: nat, given: seq<string>)
    requires applied != [] && applied[0].Printable() && applied[0].Param().Some? && room > 0
    requires given != [] && given[0] == applied[0].Param().value && given[1..] == PrintParams(applied[1..])
    requires Serves(applied, Got(given, room)) && NUL !in ParamsText(given, None)
    ensures RT.Middle(given[0]) && Serves(applied[1..], Got(given[1..], room - 1)) && NUL !in ParamsText(given[1..], None)
  {
    FirstServed(applied, room, given);
    WordGot(given, room);
    hide PrintParams, RT.Middle, Got, ParamsText;
    assert ([given[0]] + Got(given[1..], room - 1))[1..] == Got(given[1..], room - 1);
  }

  lemma ServedWithoutRoom(applied: seq<Change>)
    requires Serves(applied, Got(PrintParams(applied), 0))
    ensures AllWords(PrintParams(applied)) && OnlyBareKeysBeyond(applied, 0)
  {
    NothingGot(PrintParams(applied));
    hide Got;
    NothingServesBareKeys(applied);
    StarsAreWords(PrintParams(applied));
  }

  lemma WordsCons(p: string, rest: seq<string>)
    ensures AllWords([p] + rest) <==> RT.Middle(p) && AllWords(rest)
  {
    hide RT.Middle;
    assert p in [p] + rest && forall r :: r in rest ==> r in [p] + rest;
  }

  lemma StarsAreWords(given: seq<string>)
    requires forall p :: p in given ==> p == "*"
    ensures AllWords(given)
  {
    var star := "*";
    assert star[0] == '*' && RT.Middle(star);
  }

  lemma FirstServed(applied: seq<Change>, room: nat, given: seq<string>)
    requires applied != [] && applied[0].Printable() && applied[0].Param().Some? && room > 0
    requires given != [] && given[0] == applied[0].Param().value && given[1..] == PrintParams(applied[1..])
    requires Serves(applied, Got(given, room)) && NUL !in ParamsText(given, None)
    ensures RT.Middle(given[0])
  {
    hide PrintParams, Got, ParamsText;
    var q := Got(given, room);
    if q != [] && |q| == 1 {
      assert q[1..] == [];
      NothingServesBareKeys(applied[1..]);
    }
    FirstServedIsWord(given, room);
  }

  /** Every parameter of the applied changes is a word, and only bare -k has one past the thirteenth. */
  predicate ChangesSurvive(applied: seq<Change>)
  {
    AllWords(PrintParams(applied)) && OnlyBareKeysBeyond(applied, PARAMS_LENGTH - 2)
  }

  /** A member reads the applied changes off the line of the notice exactly when they survive it. */
  lemma ChangesOverTheWire(source: string, chan: string, applied: seq<Change>)
    requires RT.Solid(source) && RT.Middle(chan) && applied != [] && forall c :: c in applied ==> c.Printable()
    ensures Asks(Parse(Print(NoticeLine(source, chan, applied))), chan, applied) <==> ChangesSurvive(applied)
  {
    var given, letters := PrintParams(applied), PrintModes(applied, None);
    NoticeRead(source, chan, applied);
    LettersOfNotice(applied, None, true);
    var rest := RT.Read(given, None, PARAMS_LENGTH - 2);
    ServesIff(applied, NonEmptyParams(rest));
    hide Parse, Print, PrintModes, PrintParams, RT.Read, Letters, Items, SignedLetters, ParamsText, Serves, AllWords,
         OnlyBareKeysBeyond;
    assert ([chan, letters] + rest)[2..] == rest;
    if ChangesSurvive(applied) {
      WordsServe(applied, PARAMS_LENGTH - 2);
    }
    if NUL !in ParamsText(given, None) && Serves(applied, NonEmptyParams(rest)) {
      ServedAreWords(applied, PARAMS_LENGTH - 2);
    }
  }

  // ---- what the request says about its notice

  lemma {:induction false} MoreRoom(applied: seq<Change>, room: nat, more: nat)
    requires OnlyBareKeysBeyond(applied, room) && room <= more
    ensures OnlyBareKeysBeyond(applied, more)
    decreases applied
  {
    if applied != [] {
      var c, rest := applied[0], applied[1..];
      if c.Param().None? {
        MoreRoom(rest, room, more);
      } else if room > 0 {
        MoreRoom(rest, room - 1, more - 1);
      } else {
        MoreRoom(rest, 0, if more > 0 then more - 1 else 0);
      }
    }
  }

  /** A letter takes the first parameter for its change, or none is left and only -k goes without. */
  lemma TakesFirst(value: bool, mode: char, params: seq<string>)
    ensures var (item, rest) := Interpret(value, mode, params);
            && (item.Good? && item.change.Param().Some? ==>
                  if params == [] then item.change == Key(false, "*") && rest == []
                  else item.change.Param().value == params[0] && rest == params[1..])
            && (rest == params || (params != [] && rest == params[1..]))
  {
  }

  /** Applied changes carry parameters of the request in order, but for a bare -k once they are used up. */
  lemma {:induction false} AppliedFromRequest(ch: C.Channel, letters: seq<(bool, char)>, params: seq<string>, keylen: nat,
                                              nickOf: map<C.Id, string>)
    requires ch.members.Keys <= nickOf.Keys
    ensures var applied := C.ApplyAll(ch, Items(letters, params), keylen, nickOf).1;
            && (AllWords(params) ==> AllWords(PrintParams(applied)))
            && OnlyBareKeysBeyond(applied, |params|)
    decreases letters
  {
    if letters != [] {
      var (item, rest) := Interpret(letters[0].0, letters[0].1, params);
      TakesFirst(letters[0].0, letters[0].1, params);
      hide Interpret, C.Apply;
      assert Items(letters, params)[1..] == Items(letters[1..], rest) && Items(letters, params)[0] == item;
      assert AllWords(params) ==> AllWords(rest);
      if item.Bad? {
        AppliedFromRequest(ch, letters[1..], rest, keylen, nickOf);
        MoreRoom(C.ApplyAll(ch, Items(letters[1..], rest), keylen, nickOf).1, |rest|, |params|);
      } else {
        C.UnappliedKeeps(ch, item.change, keylen, nickOf);
        var next := C.Apply(ch, item.change, keylen, nickOf).0;
        AppliedFromRequest(next, letters[1..], rest, keylen, nickOf);
        var later := C.ApplyAll(next, Items(letters[1..], rest), keylen, nickOf).1;
        OneMoreApplied(item.change, later, params, rest);
        if AllWords(params) { OneMoreWord(item.change, later, params); }
        assert C.ApplyAll(ch, Items(letters, params), keylen, nickOf).1
            == (if C.Apply(ch, item.change, keylen, nickOf).1 == C.Applied then [item.change] else []) + later;
      }
    }
  }

  lemma OneMoreApplied(c: Change, later: seq<Change>, params: seq<string>, rest: seq<string>)
    requires OnlyBareKeysBeyond(later, |rest|) && (rest == params || (params != [] && rest == params[1..]))
    requires c.Param().Some? && params == [] ==> c == Key(false, "*")
    requires c.Param().Some? && params != [] ==> rest == params[1..]
    ensures OnlyBareKeysBeyond([c] + later, |params|) && OnlyBareKeysBeyond([] + later, |params|)
  {
    MoreRoom(later, |rest|, |params|);
    assert ([c] + later)[1..] == later && [] + later == later;
  }

  lemma OneMoreWord(c: Change, later: seq<Change>, params: seq<string>)
    requires c.Param().Some? ==> c.Param().value == if params == [] then "*" else params[0]
    requires AllWords(params) && AllWords(PrintParams(later))
    ensures AllWords(PrintParams([c] + later)) && AllWords(PrintParams([] + later))
  {
    PrintOneMore(c, later);
    StarsAreWords(["*"]);
    hide PrintParams, RT.Middle;
  }

  lemma PrintOneMore(c: Change, later: seq<Change>)
    ensures PrintParams([c] + later) == (if c.Param().Some? then [c.Param().value] else []) + PrintParams(later)
    ensures PrintParams([] + later) == PrintParams(later)
  {
    assert ([c] + later)[1..] == later && [] + later == later;
  }

  /**
   * The notice of every request that applied something. The changes read off its line are the applied
   * ones exactly when they survive; for a request with at most thirteen parameters, which is all that a
   * line can bring, that is when the parameters of the applied changes are words; and it is enough that
   * the request's own parameters are. What is read, replayed on the old channel, then reaches the final one.
   */
  lemma RequestOverTheWire(source: string, chan: string, ch: C.Channel, modes: string, params: seq<string>, keylen: nat,
                           nickOf: map<C.Id, string>)
    requires ch.members.Keys <= nickOf.Keys && RT.Solid(source) && RT.Middle(chan)
    requires C.ApplyAll(ch, Query(modes, params), keylen, nickOf).1 != []
    ensures var (final, applied) := C.ApplyAll(ch, Query(modes, params), keylen, nickOf);
            var read := Parse(Print(NoticeLine(source, chan, applied)));
            && (Asks(read, chan, applied) <==> ChangesSurvive(applied))
            && (|NonEmptyParams(params)| <= PARAMS_LENGTH - 2 ==>
                  (Asks(read, chan, applied) <==> AllWords(PrintParams(applied))))
            && (|NonEmptyParams(params)| <= PARAMS_LENGTH - 2 && AllWords(NonEmptyParams(params)) ==>
                  Asks(read, chan, applied))
            && (Asks(read, chan, applied) ==>
                  C.ApplyAll(ch, Query(read.value.params[1], read.value.params[2..]), keylen, nickOf) == (final, applied))
  {
    var q := NonEmptyParams(params);
    var applied := C.ApplyAll(ch, Query(modes, params), keylen, nickOf).1;
    ParsedArePrintable(Letters(modes, true), q);
    C.AppliedArePrintable(ch, Query(modes, params), keylen, nickOf);
    AppliedFromRequest(ch, Letters(modes, true), q, keylen, nickOf);
    hide Parse, Print, Query, C.ApplyAll, AllWords, OnlyBareKeysBeyond, PrintParams, PrintModes;
    if |q| <= PARAMS_LENGTH - 2 { MoreRoom(applied, |q|, PARAMS_LENGTH - 2); }
    ChangesOverTheWire(source, chan, applied);
    C.Replay(ch, Query(modes, params), keylen, nickOf);
  }

  // ---- one parameter more than was given

  /** With the parameters used up only a bare -k still prints one, and at most once, while a key is set. */
  lemma {:induction false} BareKeyOnce(ch: C.Channel, letters: seq<(bool, char)>, keylen: nat, nickOf: map<C.Id, string>)
    requires ch.members.Keys <= nickOf.Keys
    ensures |PrintParams(C.ApplyAll(ch, Items(letters, []), keylen, nickOf).1)| <= if ch.key.Some? then 1 else 0
    decreases letters
  {
    if letters != [] {
      var (item, rest) := Interpret(letters[0].0, letters[0].1, []);
      C.ParamlessChanges(letters[0].0, letters[0].1);
      hide Interpret;
      assert Items(letters, [])[1..] == Items(letters[1..], []) && Items(letters, [])[0] == item;
      if item.Bad? {
        BareKeyOnce(ch, letters[1..], keylen, nickOf);
      } else {
        KeyAfter(ch, item.change, keylen, nickOf);
        hide C.Apply;
        var (next, o) := C.Apply(ch, item.change, keylen, nickOf);
        BareKeyOnce(next, letters[1..], keylen, nickOf);
        PrintOneMore(item.change, C.ApplyAll(next, Items(letters[1..], []), keylen, nickOf).1);
      }
    }
  }

  lemma KeyAfter(ch: C.Channel, change: Change, keylen: nat, nickOf: map<C.Id, string>)
    requires ch.members.Keys <= nickOf.Keys && (change.Param().Some? ==> change == Key(false, "*"))
    ensures var (next, o) := C.Apply(ch, change, keylen, nickOf);
            && next.members.Keys <= nickOf.Keys
            && (change.Param().None? ==> next.key == ch.key)
            && (change.Param().Some? ==> next.key.None? && (o == C.Applied <==> ch.key.Some?))
  {
    hide C.SetFlag, C.SetMask, C.ParseUsize;
  }

  /** A notice prints at most one parameter more than its request had. */
  lemma {:induction false} OneMoreParam(ch: C.Channel, letters: seq<(bool, char)>, params: seq<string>, keylen: nat,
                                        nickOf: map<C.Id, string>)
    requires ch.members.Keys <= nickOf.Keys
    ensures |PrintParams(C.ApplyAll(ch, Items(letters, params), keylen, nickOf).1)| <= |params| + 1
    decreases letters
  {
    if params == [] {
      BareKeyOnce(ch, letters, keylen, nickOf);
    } else if letters != [] {
      var (item, rest) := Interpret(letters[0].0, letters[0].1, params);
      TakesFirst(letters[0].0, letters[0].1, params);
      hide Interpret, C.Apply;
      assert Items(letters, params)[1..] == Items(letters[1..], rest) && Items(letters, params)[0] == item;
      if item.Bad? {
        OneMoreParam(ch, letters[1..], rest, keylen, nickOf);
      } else {
        C.UnappliedKeeps(ch, item.change, keylen, nickOf);
        var next := C.Apply(ch, item.change, keylen, nickOf).0;
        OneMoreParam(next, letters[1..], rest, keylen, nickOf);
        PrintOneMore(item.change, C.ApplyAll(next, Items(letters[1..], rest), keylen, nickOf).1);
      }
    }
  }

  /** A request of at most twelve words is announced by a line that reads back word for word. */
  lemma WordsStayWords(source: string, chan: string, ch: C.Channel, modes: string, params: seq<string>, keylen: nat,
                       nickOf: map<C.Id, string>)
    requires ch.members.Keys <= nickOf.Keys && RT.Solid(source) && RT.Middle(chan)
    requires AllWords(NonEmptyParams(params)) && |NonEmptyParams(params)| <= PARAMS_LENGTH - 3
    requires C.ApplyAll(ch, Query(modes, params), keylen, nickOf).1 != []
    ensures var applied := C.ApplyAll(ch, Query(modes, params), keylen, nickOf).1;
            var line := NoticeLine(source, chan, applied);
            ParamsStayWords(applied) && Parse(Print(line)) == Some(Meaning(line))
  {
    var q := NonEmptyParams(params);
    ParsedArePrintable(Letters(modes, true), q);
    C.AppliedArePrintable(ch, Query(modes, params), keylen, nickOf);
    AppliedFromRequest(ch, Letters(modes, true), q, keylen, nickOf);
    OneMoreParam(ch, Letters(modes, true), q, keylen, nickOf);
    hide Parse, Print, C.ApplyAll, PrintParams, RT.Middle, OnlyBareKeysBeyond;
    NoticeOverTheWire(source, chan, C.ApplyAll(ch, Query(modes, params), keylen, nickOf).1);
  }

  // ---- a request whose notice does not survive

  lemma SpacedKeyQuery()
    ensures Query("+k", ["a b"]) == [Good(Key(true, "a b"))]
  {
  }

  lemma SpacedKeyApplied(ch: C.Channel, keylen: nat, nickOf: map<C.Id, string>)
    requires ch.members.Keys <= nickOf.Keys && ch.key.None?
    ensures C.ApplyAll(ch, [Good(Key(true, "a b"))], keylen, nickOf).1 == [Key(true, "a b")]
  {
    assert [Good(Key(true, "a b"))][1..] == [];
  }

  /**
   * A key with a space in it, which a client can set as a trailing parameter on any channel without a
   * key, is set and announced, but members do not read that change off the line.
   */
  lemma SpacedKeyIsLost(source: string, chan: string, ch: C.Channel, keylen: nat, nickOf: map<C.Id, string>)
    requires RT.Solid(source) && RT.Middle(chan) && ch.members.Keys <= nickOf.Keys && ch.key.None?
    ensures var applied := C.ApplyAll(ch, Query("+k", ["a b"]), keylen, nickOf).1;
            && applied == [Key(true, "a b")]
            && !Asks(Parse(Print(NoticeLine(source, chan, applied))), chan, applied)
  {
    SpacedKeyQuery();
    SpacedKeyApplied(ch, keylen, nickOf);
    SpacedKeyDoesNotSurvive();
    hide Query, C.ApplyAll, Parse, Print, Asks, NoticeLine, ChangesSurvive;
    ChangesOverTheWire(source, chan, [Key(true, "a b")]);
  }

  lemma SpacedKeyDoesNotSurvive()
    ensures !ChangesSurvive([Key(true, "a b")])
  {
    var key := "a b";
    assert key[1] == ' ';
    assert !RT.Middle(key);
    assert PrintParams([Key(true, key)])[0] == key;
    assert key in PrintParams([Key(true, key)]);
  }
}
