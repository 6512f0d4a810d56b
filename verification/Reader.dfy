/** Line framing: the read loop of ellidri-reader/src/lib.rs over arbitrary input fragments. */
module Reader {

  type Byte = x: int | 0 <= x < 256

  const CR: Byte := 13
  const LF: Byte := 10
  const AT: Byte := 64

  const MAX_READ_PER_MESSAGE := 4
  const MAX_TAG_LENGTH := 4096

  predicate IsEnd(b: Byte) { b == CR || b == LF }

  predicate Endless(s: seq<Byte>)
  {
    forall k :: 0 <= k < |s| ==> !IsEnd(s[k])
  }

  function Flatten(frags: seq<seq<Byte>>): seq<Byte>
  {
    if frags == [] then [] else frags[0] + Flatten(frags[1..])
  }

  // ---- the lines of a byte stream, whatever its fragments

  /** The stream cut at every CR and every LF, empty pieces included. */
  function Pieces(s: seq<Byte>): (r: seq<seq<Byte>>)
    ensures |r| >= 1
  {
    if s == [] then [[]]
    else if IsEnd(s[0]) then [[]] + Pieces(s[1..])
    else
      var rest := Pieces(s[1..]);
      [[s[0]] + rest[0]] + rest[1..]
  }

  function NonBlank(pieces: seq<seq<Byte>>): seq<seq<Byte>>
  {
    if pieces == [] then []
    else (if pieces[0] == [] then [] else [pieces[0]]) + NonBlank(pieces[1..])
  }

  /** The non-blank lines of a stream. */
  function Lines(s: seq<Byte>): seq<seq<Byte>>
  {
    NonBlank(Pieces(s))
  }

  function One(content: seq<Byte>): seq<seq<Byte>>
  {
    if content == [] then [] else [content]
  }

  lemma {:induction false} PiecesEndless(s: seq<Byte>)
    requires Endless(s)
    ensures Pieces(s) == [s]
  {
    if s != [] {
      PiecesEndless(s[1..]);
      assert [s[0]] + s[1..] == s;
    }
  }

  lemma {:induction false} PiecesFirst(content: seq<Byte>, end: Byte, rest: seq<Byte>)
    requires Endless(content) && IsEnd(end)
    ensures Pieces(content + [end] + rest) == [content] + Pieces(rest)
  {
    var s := content + [end] + rest;
    if content == [] {
      assert s[1..] == rest;
    } else {
      assert s[1..] == content[1..] + [end] + rest;
      PiecesFirst(content[1..], end, rest);
      assert [content[0]] + content[1..] == content;
    }
  }

  lemma LinesLast(s: seq<Byte>)
    requires Endless(s)
    ensures Lines(s) == One(s)
  {
    PiecesEndless(s);
    assert NonBlank([s]) == One(s) + NonBlank([]);
  }

  lemma LinesFirst(content: seq<Byte>, end: Byte, rest: seq<Byte>)
    requires Endless(content) && IsEnd(end)
    ensures Lines(content + [end] + rest) == One(content) + Lines(rest)
  {
    PiecesFirst(content, end, rest);
    assert ([content] + Pieces(rest))[1..] == Pieces(rest);
  }

  /** A line feed that opens the rest only adds a blank piece. */
  lemma LinesSkip(rest: seq<Byte>)
    ensures Lines([LF] + rest) == Lines(rest)
  {
  }

  // ---- the reader

  datatype Result = Read(n: nat) | TooManyReads | TooLong

  function Content(line: seq<Byte>): seq<Byte>
  {
    if line != [] && IsEnd(line[|line| - 1]) then line[..|line| - 1] else line
  }

  /** What a successful read takes off the stream: a line end with a following LF, or all of it. */
  predicate Framed(before: seq<Byte>, line: seq<Byte>, n: nat, after: seq<Byte>)
  {
    && Endless(Content(line))
    && n <= |before| && before[n..] == after
    && (|| (line == before && n == |before| && Endless(line))
        || (line != [] && IsEnd(line[|line| - 1])
            && (before[..n] == line || before[..n] == line + [LF])))
  }

  /** The lines before a read are the line read and the lines after it. */
  lemma FramedKeepsLines(before: seq<Byte>, line: seq<Byte>, n: nat, after: seq<Byte>)
    requires Framed(before, line, n, after)
    ensures Lines(before) == One(Content(line)) + Lines(after)
  {
    if line == before && n == |before| && Endless(line) {
      assert after == [];
      assert Content(line) == line;
      LinesLast(line);
      assert Lines([]) == [] by { LinesLast([]); }
    } else {
      var content, end := Content(line), line[|line| - 1];
      assert line == content + [end];
      assert before == before[..n] + after;
      if before[..n] == line {
        LinesFirst(content, end, after);
      } else {
        assert before == content + [end] + ([LF] + after);
        LinesFirst(content, end, [LF] + after);
        LinesSkip(after);
      }
    }
  }

  /** The limit a line gets from its first byte. */
  function Limit(messageMax: nat, first: Byte): nat
  {
    (if first == AT then MAX_TAG_LENGTH else 0) + messageMax
  }

  // ---- what a reader gives up on, read off the fragments

  /** The limit in force after some reads: the first byte of a read sets it while it is zero. */
  function LimitAfter(frags: seq<seq<Byte>>, messageMax: nat): nat
  {
    if frags == [] then 0
    else
      var before, last := LimitAfter(frags[..|frags| - 1], messageMax), frags[|frags| - 1];
      if before == 0 && last != [] then Limit(messageMax, last[0]) else before
  }

  /** A message limit that is not zero is set once, by the first byte of the line. */
  lemma {:induction false} LimitIsSetOnce(frags: seq<seq<Byte>>, messageMax: nat)
    requires frags != [] && frags[0] != [] && messageMax > 0
    ensures LimitAfter(frags, messageMax) == Limit(messageMax, frags[0][0])
  {
    if |frags| == 1 {
      assert frags[..0] == [];
    } else {
      LimitIsSetOnce(frags[..|frags| - 1], messageMax);
    }
  }

  /** The first `j` fragments hold no line end and are already as long as the limit. */
  predicate TooLongAt(frags: seq<seq<Byte>>, messageMax: nat, j: nat)
  {
    && 1 <= j < MAX_READ_PER_MESSAGE && j <= |frags| && Endless(Flatten(frags[..j]))
    && 0 < LimitAfter(frags[..j], messageMax) <= |Flatten(frags[..j])|
  }

  ghost predicate Overlong(frags: seq<seq<Byte>>, messageMax: nat)
  {
    exists j :: TooLongAt(frags, messageMax, j)
  }

  /** The first four fragments hold no line end. */
  predicate Scattered(frags: seq<seq<Byte>>)
  {
    MAX_READ_PER_MESSAGE <= |frags| && Endless(Flatten(frags[..MAX_READ_PER_MESSAGE]))
  }

  /** A line that the reader gives up on. */
  ghost predicate Spent(frags: seq<seq<Byte>>, messageMax: nat)
  {
    Overlong(frags, messageMax) || Scattered(frags)
  }

  /** The limit is looked at between reads only: a line that ends in its first fragment may have any length. */
  lemma OneReadIsUnlimited(frags: seq<seq<Byte>>, messageMax: nat)
    requires frags != [] && !Endless(frags[0])
    ensures !Spent(frags, messageMax)
  {
    NotSpent(frags, messageMax, 0);
  }

  /**
   * A line that ends in its second read is given up on exactly when its first read is as long as the
   * message limit, or for a line that starts with an at sign, 4096 bytes longer.
   */
  lemma TagsGetMoreRoom(first: seq<Byte>, second: seq<Byte>, messageMax: nat)
    requires first != [] && Endless(first) && !Endless(second) && messageMax > 0
    ensures Spent([first, second], messageMax) <==> |first| >= messageMax + if first[0] == 64 then 4096 else 0
  {
    var frags := [first, second];
    assert frags[..1] == [first] && Flatten([first]) == first + Flatten([]) && [first][..0] == [];
    assert LimitAfter(frags[..1], messageMax) == Limit(messageMax, first[0]);
    EndInside(frags, 1, 2);
    assert TooLongAt(frags, messageMax, 1) <==> |first| >= Limit(messageMax, first[0]);
    assert !TooLongAt(frags, messageMax, 2);
  }

  lemma {:induction false} FlattenConcat(a: seq<seq<Byte>>, b: seq<seq<Byte>>)
    ensures Flatten(a + b) == Flatten(a) + Flatten(b)
  {
    if a == [] {
      assert a + b == b;
    } else {
      assert (a + b)[1..] == a[1..] + b;
      FlattenConcat(a[1..], b);
    }
  }

  lemma NothingIsSpent(messageMax: nat)
    ensures !Spent([], messageMax)
  {
  }

  lemma FlattenFirst(frags: seq<seq<Byte>>)
    requires frags != [] ==> frags[0] != []
    ensures frags == [] <==> Flatten(frags) == []
    ensures frags != [] ==> Flatten(frags)[0] == frags[0][0]
  {
  }

  lemma FlattenPrefix(frags: seq<seq<Byte>>, i: nat, j: nat)
    requires i <= j <= |frags|
    ensures Flatten(frags[..j]) == Flatten(frags[..i]) + Flatten(frags[i..j])
  {
    assert frags[..j] == frags[..i] + frags[i..j];
    FlattenConcat(frags[..i], frags[i..j]);
  }

  /** The fragments still to come once `n` bytes are consumed. */
  function CutAt(frags: seq<seq<Byte>>, n: nat): seq<seq<Byte>>
  {
    if frags == [] then []
    else if |frags[0]| <= n then CutAt(frags[1..], n - |frags[0]|)
    else [frags[0][n..]] + frags[1..]
  }

  lemma {:induction false} CutTwice(frags: seq<seq<Byte>>, m: nat, n: nat)
    ensures CutAt(CutAt(frags, m), n) == CutAt(frags, m + n)
    decreases frags
  {
    if frags != [] {
      if |frags[0]| <= m {
        CutTwice(frags[1..], m - |frags[0]|, n);
      } else {
        var cut := [frags[0][m..]] + frags[1..];
        assert cut[1..] == frags[1..];
        assert m + n < |frags[0]| ==> cut[0][n..] == frags[0][m + n..];
      }
    }
  }

  lemma CutNothing(frags: seq<seq<Byte>>)
    requires forall k :: 0 <= k < |frags| ==> frags[k] != []
    ensures CutAt(frags, 0) == frags
  {
    assert frags != [] ==> frags[0][0..] == frags[0] && [frags[0]] + frags[1..] == frags;
  }

  lemma {:induction false} CutPrefix(frags: seq<seq<Byte>>, j: nat)
    requires j <= |frags| && forall k :: 0 <= k < |frags| ==> frags[k] != []
    ensures CutAt(frags, |Flatten(frags[..j])|) == frags[j..]
  {
    if j == 0 {
      CutNothing(frags);
    } else {
      CutPrefix(frags[1..], j - 1);
      assert frags[..j][1..] == frags[1..][..j - 1];
    }
  }

  /** A line whose end comes in fragment `j`, with no limit met before, is not given up on. */
  lemma NotSpent(frags: seq<seq<Byte>>, messageMax: nat, j: nat)
    requires j < |frags| && j < MAX_READ_PER_MESSAGE && !Endless(frags[j])
    requires forall i :: 0 <= i <= j ==> !TooLongAt(frags, messageMax, i)
    ensures !Spent(frags, messageMax)
  {
    forall i | j < i <= |frags| ensures !Endless(Flatten(frags[..i])) {
      EndInside(frags, j, i);
    }
    hide Flatten, Endless, LimitAfter;
  }

  lemma EndInside(frags: seq<seq<Byte>>, j: nat, i: nat)
    requires j < i <= |frags| && !Endless(frags[j])
    ensures !Endless(Flatten(frags[..i]))
  {
    FlattenPrefix(frags, j, i);
    var tail := frags[j..i];
    assert tail[0] == frags[j] && Flatten(tail) == tail[0] + Flatten(tail[1..]);
    var k :| 0 <= k < |frags[j]| && IsEnd(frags[j][k]);
    assert Flatten(frags[..i])[|Flatten(frags[..j])| + k] == frags[j][k];
  }

  lemma OneMoreFragment(frags: seq<seq<Byte>>, messageMax: nat, j: nat)
    requires j < |frags|
    ensures Flatten(frags[..j + 1]) == Flatten(frags[..j]) + frags[j]
    ensures LimitAfter(frags[..j + 1], messageMax)
         == if LimitAfter(frags[..j], messageMax) == 0 && frags[j] != [] then Limit(messageMax, frags[j][0])
            else LimitAfter(frags[..j], messageMax)
  {
    FlattenPrefix(frags, j, j + 1);
    assert frags[j..j + 1] == [frags[j]] && Flatten([frags[j]]) == frags[j] + Flatten([]);
    assert frags[..j + 1][..j] == frags[..j];
  }

  /** A position where a line starts: the front of the stream, or after a line end. */
  predicate StartsLine(stream: seq<Byte>, p: nat)
  {
    p <= |stream| && (p == 0 || IsEnd(stream[p - 1]))
  }

  /** No line of the stream is one that the reader gives up on. */
  ghost predicate Readable(frags: seq<seq<Byte>>, messageMax: nat)
  {
    forall p :: StartsLine(Flatten(frags), p) ==> !Spent(CutAt(frags, p), messageMax)
  }

  /** A line read at `taken` takes the reader to the next start of a line, past none that is spent. */
  lemma ReadOneLine(frags: seq<seq<Byte>>, messageMax: nat, taken: nat, line: seq<Byte>, n: nat)
    requires var all := Flatten(frags);
             taken <= |all| && 0 < n <= |all| - taken && Framed(all[taken..], line, n, all[taken..][n..])
    requires !Spent(CutAt(frags, taken), messageMax)
    ensures var all := Flatten(frags);
            all[taken..][n..] == all[taken + n..] && (taken + n == |all| || StartsLine(all, taken + n))
    ensures CutAt(CutAt(frags, taken), n) == CutAt(frags, taken + n)
    ensures forall p :: taken <= p < taken + n && StartsLine(Flatten(frags), p) ==> !Spent(CutAt(frags, p), messageMax)
  {
    hide Spent, CutAt;
    var all := Flatten(frags);
    assert all[taken..][n..] == all[taken + n..];
    CutTwice(frags, taken, n);
    forall p | taken < p < taken + n && StartsLine(all, p) ensures !Spent(CutAt(frags, p), messageMax) {
      assert IsEnd(all[taken..][..n][p - 1 - taken]);
      assert p == taken + |line| && all[p] == LF by { OnlyLastEnds(all[taken..], line, n, p - taken); }
      CutStarts(frags, p);
      assert IsEnd(CutAt(frags, p)[0][0]);
      OneReadIsUnlimited(CutAt(frags, p), messageMax);
    }
  }

  predicate EndsLine(frag: seq<Byte>)
  {
    frag != [] && IsEnd(frag[|frag| - 1])
  }

  /** Lines that are never cut by the end of a fragment are all read, whatever their lengths. */
  lemma WholeLinesAreReadable(frags: seq<seq<Byte>>, messageMax: nat)
    requires forall k :: 0 <= k < |frags| ==> EndsLine(frags[k])
    ensures Readable(frags, messageMax)
  {
    hide Spent, StartsLine;
    forall p | StartsLine(Flatten(frags), p) ensures !Spent(CutAt(frags, p), messageMax) {
      CutEnds(frags, p);
      var cut := CutAt(frags, p);
      if cut != [] {
        assert IsEnd(cut[0][|cut[0]| - 1]);
        assert !Endless(cut[0]);
        OneReadIsUnlimited(cut, messageMax);
      } else {
        NothingIsSpent(messageMax);
      }
    }
  }

  lemma {:induction false} CutEnds(frags: seq<seq<Byte>>, p: nat)
    requires forall k :: 0 <= k < |frags| ==> EndsLine(frags[k])
    ensures var cut := CutAt(frags, p); cut != [] ==> EndsLine(cut[0])
    decreases frags
  {
    if frags != [] {
      assert EndsLine(frags[0]);
      if |frags[0]| <= p {
        hide EndsLine;
        CutEnds(frags[1..], p - |frags[0]|);
      } else {
        assert frags[0][p..][|frags[0]| - 1 - p] == frags[0][|frags[0]| - 1];
      }
    }
  }

  lemma {:induction false} CutAll(frags: seq<seq<Byte>>)
    ensures CutAt(frags, |Flatten(frags)|) == []
  {
    if frags != [] { CutAll(frags[1..]); }
  }

  lemma OnlyLastEnds(before: seq<Byte>, line: seq<Byte>, n: nat, p: nat)
    requires n <= |before| && Framed(before, line, n, before[n..]) && 0 < p < n && IsEnd(before[p - 1])
    ensures p == |line| && before[p] == LF
  {
    assert before[..n][p - 1] == before[p - 1] && before[..n][p] == before[p];
    assert forall q :: 0 <= q < |Content(line)| ==> Content(line)[q] == line[q];
  }

  lemma {:induction false} CutStarts(frags: seq<seq<Byte>>, p: nat)
    requires p < |Flatten(frags)|
    ensures var cut := CutAt(frags, p); cut != [] && cut[0] != [] && cut[0][0] == Flatten(frags)[p]
    decreases frags
  {
    if |frags[0]| <= p {
      CutStarts(frags[1..], p - |frags[0]|);
    }
  }

  /**
   * A line without its end after `count` whole fragments: its bytes, the limit in force, and no limit
   * met before.
   */
  ghost predicate Collected(all: seq<seq<Byte>>, messageMax: nat, count: nat, frags: seq<seq<Byte>>, line: seq<Byte>,
                            limit: nat)
  {
    && count <= |all| && frags == all[count..] && line == Flatten(all[..count]) && Endless(line)
    && limit == LimitAfter(all[..count], messageMax)
    && (forall k :: 0 <= k < |all| ==> all[k] != [])
    && (forall j :: 0 <= j < count ==> !TooLongAt(all, messageMax, j))
  }

  lemma CollectedNothing(all: seq<seq<Byte>>, messageMax: nat)
    requires forall k :: 0 <= k < |all| ==> all[k] != []
    ensures Collected(all, messageMax, 0, all, [], 0)
  {
    assert all[..0] == [] && all[0..] == all;
  }

  lemma GivesUp(all: seq<seq<Byte>>, messageMax: nat, count: nat, frags: seq<seq<Byte>>, line: seq<Byte>, limit: nat)
    requires Collected(all, messageMax, count, frags, line, limit)
    ensures count == MAX_READ_PER_MESSAGE ==> Scattered(all) && !Overlong(all, messageMax)
    ensures count < MAX_READ_PER_MESSAGE && 0 < limit <= |line| ==> Overlong(all, messageMax)
  {
    if count < MAX_READ_PER_MESSAGE && 0 < limit <= |line| {
      assert TooLongAt(all, messageMax, count);
    }
  }

  /** The bytes collected are the front of the stream, and what is to come is the rest of it. */
  lemma CollectedUnderway(all: seq<seq<Byte>>, messageMax: nat, count: nat, frags: seq<seq<Byte>>, line: seq<Byte>,
                          limit: nat)
    requires Collected(all, messageMax, count, frags, line, limit)
    ensures Underway(Flatten(all), line, |line|, Flatten(frags))
    ensures all != [] <==> Flatten(all) != []
  {
    hide LimitAfter, TooLongAt;
    assert all == all[..count] + all[count..];
    FlattenConcat(all[..count], all[count..]);
    FlattenFirst(all);
  }

  /** With a message limit, fewer bytes were collected than the limit that the first of them sets. */
  lemma CollectedFewer(all: seq<seq<Byte>>, messageMax: nat, count: nat, frags: seq<seq<Byte>>, line: seq<Byte>, limit: nat)
    requires Collected(all, messageMax, count, frags, line, limit) && !(0 < limit <= |line|)
    ensures messageMax > 0 && line != [] ==> all != [] && Flatten(all) != [] && |line| < Limit(messageMax, Flatten(all)[0])
  {
    if messageMax > 0 && line != [] {
      LimitIsSetOnce(all[..count], messageMax);
      FlattenFirst(all);
    }
  }

  /** The reader gives up on a line neither when it ends nor when the input does. */
  lemma Finishes(all: seq<seq<Byte>>, messageMax: nat, count: nat, frags: seq<seq<Byte>>, line: seq<Byte>, limit: nat)
    requires Collected(all, messageMax, count, frags, line, limit) && count < MAX_READ_PER_MESSAGE
    requires !(0 < limit <= |line|) && (frags == [] || !Endless(frags[0]))
    ensures !Overlong(all, messageMax) && !Scattered(all)
  {
    if count < |all| {
      NotSpent(all, messageMax, count);
    }
  }

  lemma CollectedMore(all: seq<seq<Byte>>, messageMax: nat, count: nat, frags: seq<seq<Byte>>, line: seq<Byte>, limit: nat,
                      limit': nat, chunk: seq<Byte>, used: nat, left: seq<seq<Byte>>)
    requires Collected(all, messageMax, count, frags, line, limit) && !(0 < limit <= |line|)
    requires WholeFill(frags, messageMax, limit, limit', chunk, used, left)
    ensures Collected(all, messageMax, count + 1, left, line + chunk, limit') && |line + chunk| == |line| + used
  {
    OneMoreFragment(all, messageMax, count);
  }

  /**
   * A line read off the fragments: what was taken off, in at most four reads, and before the last of
   * them fewer bytes than the limit.
   */
  ghost predicate LineRead(all: seq<seq<Byte>>, messageMax: nat, line: seq<Byte>, n: nat, fills: nat, beforeLast: nat,
                           left: seq<seq<Byte>>)
  {
    && Framed(Flatten(all), line, n, Flatten(left)) && left == CutAt(all, n) && (n == 0 <==> Flatten(all) == [])
    && fills <= MAX_READ_PER_MESSAGE && beforeLast <= n
    && (messageMax > 0 && beforeLast > 0 ==> beforeLast < Limit(messageMax, Flatten(all)[0]))
  }

  lemma LineReadFacts(all: seq<seq<Byte>>, messageMax: nat, line: seq<Byte>, n: nat, fills: nat, beforeLast: nat,
                      left: seq<seq<Byte>>)
    requires LineRead(all, messageMax, line, n, fills, beforeLast, left)
    ensures Framed(Flatten(all), line, n, Flatten(left)) && left == CutAt(all, n)
    ensures n <= |Flatten(all)| && Flatten(left) == Flatten(all)[n..] && (n == 0 ==> Flatten(all) == [])
  {
  }

  /** A pass over what is available that ends the line, or finds the end of the input. */
  ghost predicate LastFill(frags: seq<seq<Byte>>, chunk: seq<Byte>, used: nat, left: seq<seq<Byte>>)
  {
    && used <= |Flatten(frags)| && Flatten(left) == Flatten(frags)[used..] && left == CutAt(frags, used)
    && if frags == [] then chunk == [] && used == 0 else !Endless(frags[0]) && Ended(chunk, Flatten(frags)[..used])
  }

  /** A pass over a fragment without a line end takes all of it. */
  ghost predicate WholeFill(frags: seq<seq<Byte>>, messageMax: nat, limit: nat, limit': nat, chunk: seq<Byte>, used: nat,
                            left: seq<seq<Byte>>)
  {
    && frags != [] && frags[0] != [] && Endless(frags[0]) && chunk == frags[0] && used == |chunk| && left == frags[1..]
    && limit' == if limit == 0 then Limit(messageMax, frags[0][0]) else limit
  }

  /** The line ended in what was read last, or the input did before. */
  lemma LineDone(all: seq<seq<Byte>>, messageMax: nat, count: nat, frags: seq<seq<Byte>>, line: seq<Byte>, limit: nat,
                 chunk: seq<Byte>, used: nat, left: seq<seq<Byte>>)
    requires Collected(all, messageMax, count, frags, line, limit) && count < MAX_READ_PER_MESSAGE
    requires !(0 < limit <= |line|)
    requires LastFill(frags, chunk, used, left)
    ensures LineRead(all, messageMax, line + chunk, |line| + used, if frags == [] then count else count + 1, |line|, left)
    ensures !Overlong(all, messageMax) && !Scattered(all)
  {
    CollectedUnderway(all, messageMax, count, frags, line, limit);
    CollectedIsCut(all, messageMax, count, frags, line, limit, used);
    Finishes(all, messageMax, count, frags, line, limit);
    CollectedFewer(all, messageMax, count, frags, line, limit);
    assert frags == [] ==> Flatten(frags) == [];
    hide Collected, Overlong, Scattered, CutAt, Limit, Endless, Flatten, Ended, Framed, Underway;
    LineFramed(Flatten(all), line, Flatten(frags), chunk, used);
  }

  lemma LineFramed(all: seq<Byte>, line: seq<Byte>, left: seq<Byte>, chunk: seq<Byte>, used: nat)
    requires Underway(all, line, |line|, left) && used <= |left|
    requires (left == [] && chunk == []) || Ended(chunk, left[..used])
    ensures |line| + used <= |all| && Framed(all, line + chunk, |line| + used, left[used..])
    ensures |line| + used == 0 <==> all == []
  {
    if chunk == [] {
      UnderwayGoesOn(all, line, |line|, left, chunk, used);
    } else {
      UnderwayEnds(all, line, |line|, left, chunk, used);
    }
  }

  lemma CollectedIsCut(all: seq<seq<Byte>>, messageMax: nat, count: nat, frags: seq<seq<Byte>>, line: seq<Byte>, limit: nat,
                       used: nat)
    requires Collected(all, messageMax, count, frags, line, limit)
    ensures CutAt(frags, used) == CutAt(all, |line| + used)
  {
    CutPrefix(all, count);
    CutTwice(all, |line|, used);
  }

  /** After `taken` bytes: at the start of a line or the end of the stream, past no line to give up on. */
  ghost predicate Advanced(all: seq<seq<Byte>>, messageMax: nat, taken: nat, frags: seq<seq<Byte>>, lines: seq<seq<Byte>>)
  {
    var stream := Flatten(all);
    && taken <= |stream| && (taken == |stream| || StartsLine(stream, taken))
    && Flatten(frags) == stream[taken..] && frags == CutAt(all, taken)
    && (forall p :: 0 <= p < taken && StartsLine(stream, p) ==> !Spent(CutAt(all, p), messageMax))
    && lines + Lines(Flatten(frags)) == Lines(stream)
  }

  lemma AdvancedNothing(all: seq<seq<Byte>>, messageMax: nat)
    requires forall k :: 0 <= k < |all| ==> all[k] != []
    ensures Advanced(all, messageMax, 0, all, [])
  {
    CutNothing(all);
    hide Flatten, Lines, CutAt;
    assert [] + Lines(Flatten(all)) == Lines(Flatten(all));
  }

  lemma AdvancedStops(all: seq<seq<Byte>>, messageMax: nat, taken: nat, frags: seq<seq<Byte>>, lines: seq<seq<Byte>>)
    requires Advanced(all, messageMax, taken, frags, lines) && (Overlong(frags, messageMax) || Scattered(frags))
    ensures !Readable(all, messageMax)
  {
    if taken == |Flatten(all)| {
      CutAll(all);
      NothingIsSpent(messageMax);
    }
    hide Flatten, Lines, CutAt, Overlong, Scattered;
  }

  lemma AdvancedToTheEnd(all: seq<seq<Byte>>, messageMax: nat, taken: nat, frags: seq<seq<Byte>>, lines: seq<seq<Byte>>,
                         line: seq<Byte>, fills: nat, beforeLast: nat, left: seq<seq<Byte>>)
    requires Advanced(all, messageMax, taken, frags, lines)
    requires LineRead(frags, messageMax, line, 0, fills, beforeLast, left)
    ensures Readable(all, messageMax) && lines == Lines(Flatten(all)) && Flatten(left) == []
  {
    LineReadFacts(frags, messageMax, line, 0, fills, beforeLast, left);
    CutAll(all);
    NothingIsSpent(messageMax);
    LinesLast([]);
    hide Flatten, Lines, CutAt, Spent, LineRead;
    assert lines + [] == lines;
  }

  lemma AdvancedMore(all: seq<seq<Byte>>, messageMax: nat, taken: nat, frags: seq<seq<Byte>>, lines: seq<seq<Byte>>,
                     line: seq<Byte>, n: nat, fills: nat, beforeLast: nat, left: seq<seq<Byte>>)
    requires Advanced(all, messageMax, taken, frags, lines) && n > 0 && !Overlong(frags, messageMax) && !Scattered(frags)
    requires LineRead(frags, messageMax, line, n, fills, beforeLast, left)
    ensures Advanced(all, messageMax, taken + n, left, lines + One(Content(line))) && taken + n <= |Flatten(all)|
  {
    LineReadFacts(frags, messageMax, line, n, fills, beforeLast, left);
    hide Overlong, Scattered, LineRead, Flatten, Lines, CutAt, Framed, One, Content, StartsLine;
    assert !Spent(frags, messageMax);
    hide Spent;
    ReadOneLine(all, messageMax, taken, line, n);
    FramedKeepsLines(Flatten(frags), line, n, Flatten(left));
    var first, rest := One(Content(line)), Lines(Flatten(left));
    assert lines + (first + rest) == lines + first + rest;
  }

  method FindEnd(s: seq<Byte>) returns (i: nat)
    ensures i <= |s| && Endless(s[..i])
    ensures i < |s| ==> IsEnd(s[i])
  {
    i := 0;
    while i < |s| && !IsEnd(s[i])
      invariant 0 <= i <= |s| && Endless(s[..i])
    {
      i := i + 1;
    }
  }

  /** A buffered reader: its fragments still to come, the first one partly consumed. */
  class IrcReader {
    const messageMax: nat
    var frags: seq<seq<Byte>>

    ghost predicate Valid()
      reads this
    {
      forall k :: 0 <= k < |frags| ==> frags[k] != []
    }

    ghost function Stream(): seq<Byte>
      reads this
    {
      Flatten(frags)
    }

    constructor (frags: seq<seq<Byte>>, messageMax: nat)
      requires forall k :: 0 <= k < |frags| ==> frags[k] != []
      ensures Valid() && this.frags == frags && this.messageMax == messageMax
    {
      this.frags, this.messageMax := frags, messageMax;
    }

    /** What is buffered, or the next fragment; empty at the end of the input. */
    function Available(): seq<Byte>
      reads this
    {
      if frags == [] then [] else frags[0]
    }

    method Consume(used: nat)
      requires Valid() && used <= |Available()|
      modifies this
      ensures Valid() && Stream() == old(Stream())[used..]
      ensures frags == CutAt(old(frags), used)
    {
      if frags == [] { return; }
      assert used == |frags[0]| ==> CutAt(frags[1..], 0) == frags[1..] by { CutNothing(frags[1..]); }
      assert Flatten(frags)[used..] == frags[0][used..] + Flatten(frags[1..]);
      if used == |frags[0]| {
        frags := frags[1..];
      } else {
        frags := [frags[0][used..]] + frags[1..];
      }
    }

    /** One pass over what is available: up to a line end, with a following LF, or all of it. */
    method Scan() returns (chunk: seq<Byte>, done: bool, used: nat)
      requires Valid()
      modifies this
      ensures Valid()
      ensures used <= |old(Stream())| && Stream() == old(Stream())[used..]
      ensures done ==> Ended(chunk, old(Stream())[..used])
      ensures !done ==> Endless(chunk) && chunk == old(Stream())[..used] && (used == 0 <==> old(Stream()) == [])
      ensures frags == CutAt(old(frags), used)
      ensures done <==> old(frags) != [] && !Endless(old(frags)[0])
      ensures !done ==> chunk == old(Available()) && (old(frags) != [] ==> frags == old(frags)[1..])
    {
      var available := Available();
      ghost var stream := Stream();
      assert stream == available + Flatten(if frags == [] then [] else frags[1..]);
      var i := FindEnd(available);
      done := i < |available|;
      if done {
        chunk := available[..i + 1];
        used := if i + 1 < |available| && available[i + 1] == LF then i + 2 else i + 1;
        assert stream[..used] == available[..used];
        assert chunk[..i] == available[..i];
        assert used == i + 2 ==> available[..used] == chunk + [LF];
      } else {
        chunk := available;
        used := |available|;
        assert available[..i] == available;
        assert stream[..used] == available;
        assert used == 0 ==> frags == [];
      }
      Consume(used);
    }

    /**
     * One line. It uses at most four reads that are not the end of the input, and before the last
     * of them fewer bytes than the limit its first byte sets. Which lines are given up on, and why, is
     * decided by the fragments alone.
     */
    method ReadLine() returns (r: Result, line: seq<Byte>, ghost fills: nat, ghost beforeLast: nat)
      requires Valid()
      modifies this
      ensures Valid()
      ensures r.Read? ==> LineRead(old(frags), messageMax, line, r.n, fills, beforeLast, frags)
      ensures r.TooLong? <==> Overlong(old(frags), messageMax)
      ensures r.TooManyReads? <==> Scattered(old(frags)) && !Overlong(old(frags), messageMax)
    {
      line := [];
      var read, limit, count := 0, 0, 0;
      ghost var all := frags;
      CollectedNothing(frags, messageMax);
      hide Collected, Overlong, Scattered, LineRead, LastFill, WholeFill, Valid;
      while true
        invariant Valid() && Collected(all, messageMax, count, frags, line, limit)
        invariant read == |line| && count <= MAX_READ_PER_MESSAGE
        decreases MAX_READ_PER_MESSAGE - count
      {
        if MAX_READ_PER_MESSAGE <= count {
          GivesUp(all, messageMax, count, frags, line, limit);
          return TooManyReads, line, count, 0;
        }
        if 0 < limit <= read {
          GivesUp(all, messageMax, count, frags, line, limit);
          return TooLong, line, count, 0;
        }
        beforeLast := read;
        ghost var left, was := frags, limit;
        var chunk, done, used;
        limit, chunk, done, used := Fill(limit);
        if done || used == 0 {
          LineDone(all, messageMax, count, left, line, was, chunk, used, frags);
          return Read(read + used), line + chunk, if left == [] then count else count + 1, beforeLast;
        }
        CollectedMore(all, messageMax, count, left, line, was, limit, chunk, used, frags);
        line, read := line + chunk, read + used;
        count := count + 1;
      }
    }

    /** Sets the limit, then passes over what is available. */
    method Fill(limit: nat) returns (limit': nat, chunk: seq<Byte>, done: bool, used: nat)
      requires Valid()
      modifies this
      ensures Valid()
      ensures done || used == 0 ==> LastFill(old(frags), chunk, used, frags)
      ensures !done && used > 0 ==> WholeFill(old(frags), messageMax, limit, limit', chunk, used, frags)
    {
      FlattenFirst(frags);
      limit' := SetLimit(limit);
      chunk, done, used := Scan();
    }

    /** The first byte of a line sets its limit. */
    method SetLimit(limit: nat) returns (limit': nat)
      requires Valid()
      ensures limit' == if limit == 0 && Stream() != [] then Limit(messageMax, Stream()[0]) else limit
    {
      var available := Available();
      FlattenFirst(frags);
      limit' := limit;
      if limit == 0 && available != [] {
        if available[0] == AT {
          limit' := MAX_TAG_LENGTH;
        }
        limit' := limit' + messageMax;
      }
    }

    /**
     * Reading until the input ends gives the lines of the stream, however it was cut into fragments,
     * unless some line of it is one that the reader gives up on.
     */
    method ReadAll() returns (ok: bool, lines: seq<seq<Byte>>)
      requires Valid()
      modifies this
      ensures ok ==> lines == Lines(old(Stream())) && Stream() == []
      ensures ok <==> Readable(old(frags), messageMax)
    {
      lines := [];
      ghost var all := frags;
      ghost var taken: nat := 0;
      AdvancedNothing(frags, messageMax);
      hide Flatten, Overlong, Scattered, LineRead, Lines, Readable, Advanced, Valid;
      while true
        invariant Valid() && Advanced(all, messageMax, taken, frags, lines)
        decreases |Flatten(all)| - taken
      {
        ghost var left := frags;
        var r, line, fills, beforeLast := ReadLine();
        if !r.Read? {
          AdvancedStops(all, messageMax, taken, left, lines);
          return false, lines;
        }
        if r.n == 0 {
          AdvancedToTheEnd(all, messageMax, taken, left, lines, line, fills, beforeLast, frags);
          return true, lines;
        }
        AdvancedMore(all, messageMax, taken, left, lines, line, r.n, fills, beforeLast, frags);
        taken := taken + r.n;
        lines := lines + One(Content(line));
      }
    }
  }

  /** A chunk up to a line end, and what was taken off the stream for it. */
  ghost predicate Ended(chunk: seq<Byte>, taken: seq<Byte>)
  {
    && chunk != [] && IsEnd(chunk[|chunk| - 1]) && Endless(chunk[..|chunk| - 1])
    && (taken == chunk || taken == chunk + [LF])
  }

  /** A line without its end yet: everything read so far. */
  ghost predicate Underway(all: seq<Byte>, line: seq<Byte>, read: nat, left: seq<Byte>)
  {
    read <= |all| && line == all[..read] && left == all[read..] && Endless(line)
  }

  lemma UnderwayEnds(all: seq<Byte>, line: seq<Byte>, read: nat, left: seq<Byte>, chunk: seq<Byte>, used: nat)
    requires Underway(all, line, read, left) && used <= |left| && Ended(chunk, left[..used])
    ensures used > 0 && read + used <= |all| && Framed(all, line + chunk, read + used, left[used..])
  {
  }

  lemma UnderwayGoesOn(all: seq<Byte>, line: seq<Byte>, read: nat, left: seq<Byte>, chunk: seq<Byte>, used: nat)
    requires Underway(all, line, read, left) && used <= |left| && chunk == left[..used] && Endless(chunk)
    ensures Underway(all, line + chunk, read + used, left[used..])
    ensures used == |left| ==> Framed(all, line + chunk, read + used, left[used..])
  {
  }
}
