/** Client capabilities (src/data/cap.rs): the diff a CAP REQ asks for, its text, and applying it. */
module Caps {
  import opened Text

  /** A table of capability names, in the order they are written. */
  type Table = seq<string>

  const CAPS: Table := [
    "account-notify", "account-tag", "away-notify", "batch", "cap-notify", "echo-message", "extended-join",
    "invite-notify", "labeled-response", "message-tags", "multi-prefix", "server-time", "setname",
    "userhost-in-names", "sasl"]

  /** A name that stands alone as a word and is not mistaken for a removal. */
  predicate IsCapName(name: string)
  {
    name != "" && name[0] != '-' && forall i :: 0 <= i < |name| ==> !IsWhitespace(name[i])
  }

  predicate IsTable(table: Table)
  {
    && (forall i :: 0 <= i < |table| ==> IsCapName(table[i]))
    && (forall i, j :: 0 <= i < j < |table| ==> table[i] != table[j])
  }

  /** What each named capability should become. */
  type Diff = map<string, bool>

  datatype Parsed = Good(diff: Diff) | InvalidCap

  // ---- words

  /** `split_whitespace`. */
  function Words(s: string): seq<string>
    decreases |s|
  {
    var t := TrimStart(s);
    if t == "" then []
    else
      var n := WordLength(t);
      [t[..n]] + Words(t[n..])
  }

  function WordLength(s: string): (n: nat)
    ensures n <= |s| && (s != "" && !IsWhitespace(s[0]) ==> n > 0)
  {
    if s == "" || IsWhitespace(s[0]) then 0 else 1 + WordLength(s[1..])
  }

  predicate IsWord(w: string)
  {
    w != "" && forall i :: 0 <= i < |w| ==> !IsWhitespace(w[i])
  }

  /** The words, a space after each but the last. */
  function Spaced(words: seq<string>): string
  {
    if words == [] then "" else if |words| == 1 then words[0] else words[0] + " " + Spaced(words[1..])
  }

  lemma {:induction false} WordLengthOf(w: string, rest: string)
    requires IsWord(w) && (rest == "" || IsWhitespace(rest[0]))
    ensures WordLength(w + rest) == |w|
  {
    assert (w + rest)[1..] == w[1..] + rest;
    if |w| > 1 {
      WordLengthOf(w[1..], rest);
    } else {
      assert w[1..] + rest == rest;
    }
  }

  lemma {:induction false} WordsOfSpaced(words: seq<string>)
    requires forall k :: 0 <= k < |words| ==> IsWord(words[k])
    ensures Words(Spaced(words)) == words
    ensures words != [] ==> Spaced(words) != "" && !IsWhitespace(Spaced(words)[0])
  {
    if words != [] {
      var rest := if |words| == 1 then "" else " " + Spaced(words[1..]);
      var text := Spaced(words);
      assert text == words[0] + rest;
      WordLengthOf(words[0], rest);
      assert text[..|words[0]|] == words[0] && text[|words[0]|..] == rest;
      WordsOfSpaced(words[1..]);
      if |words| > 1 {
        assert rest[1..] == Spaced(words[1..]);
        assert Words(rest) == Words(Spaced(words[1..]));
      }
      assert words == [words[0]] + words[1..];
    }
  }

  // ---- parsing a request

  /** One word of a request: a name, or a name to disable. */
  function Entry(word: string): (string, bool)
  {
    if word != "" && word[0] == '-' then (word[1..], false) else (word, true)
  }

  /** The words from left to right on top of `diff`; an unknown name refuses them all. */
  function ParseWords(table: Table, words: seq<string>, diff: Diff): Parsed
  {
    if words == [] then Good(diff)
    else
      var (name, on) := Entry(words[0]);
      if name in table then ParseWords(table, words[1..], diff[name := on]) else InvalidCap
  }

  function ParseDiff(table: Table, text: string): Parsed
  {
    ParseWords(table, Words(text), map[])
  }

  method TryFrom(table: Table, text: string) returns (r: Parsed)
    ensures r == ParseDiff(table, text)
  {
    var words := Words(text);
    var diff: Diff := map[];
    for k := 0 to |words|
      invariant ParseWords(table, words[k..], diff) == ParseDiff(table, text)
    {
      assert words[k..][1..] == words[k + 1..];
      var (name, on) := Entry(words[k]);
      if name !in table { return InvalidCap; }
      diff := diff[name := on];
    }
    return Good(diff);
  }

  // ---- writing

  function DiffWord(name: string, on: bool): string
  {
    if on then name else "-" + name
  }

  /** The words of a diff, in table order. */
  function DiffWords(table: Table, diff: Diff): seq<string>
  {
    if table == [] then []
    else (if table[0] in diff then [DiffWord(table[0], diff[table[0]])] else []) + DiffWords(table[1..], diff)
  }

  /** Every word with a space after it. */
  function Terminated(words: seq<string>): string
  {
    if words == [] then "" else words[0] + " " + Terminated(words[1..])
  }

  lemma {:induction false} TerminatedIsSpaced(words: seq<string>)
    requires words != []
    ensures Terminated(words) == Spaced(words) + " "
  {
    if |words| > 1 {
      TerminatedIsSpaced(words[1..]);
      Assoc(words[0] + " ", Spaced(words[1..]), " ");
    } else {
      assert Terminated(words[1..]) == "";
    }
  }

  lemma {:induction false} TerminatedConcat(a: seq<string>, b: seq<string>)
    ensures Terminated(a + b) == Terminated(a) + Terminated(b)
  {
    if a == [] {
      assert a + b == b;
    } else {
      assert (a + b)[1..] == a[1..] + b;
      TerminatedConcat(a[1..], b);
      Assoc(a[0] + " ", Terminated(a[1..]), Terminated(b));
    }
  }

  /** `Diff::write`: a space after every word, and the last space taken back. */
  method WriteDiff(table: Table, diff: Diff, buf: string) returns (r: string)
    ensures r == buf + Spaced(DiffWords(table, diff))
  {
    hide Spaced;
    r := WriteWords(table, diff, buf);
    ghost var words := DiffWords(table, diff);
    if |buf| < |r| {
      assert words != [];
      TerminatedIsSpaced(words);
      assert r[..|r| - 1] == buf + Spaced(words);
      r := r[..|r| - 1];
    } else {
      NoWords(words);
    }
  }

  lemma NoWords(words: seq<string>)
    requires Terminated(words) == ""
    ensures Spaced(words) == ""
  {
  }

  method WriteWords(table: Table, diff: Diff, buf: string) returns (r: string)
    ensures r == buf + Terminated(DiffWords(table, diff))
  {
    hide Terminated, DiffWord;
    r := buf;
    ghost var done: seq<string> := [];
    NothingYet(buf);
    for k := 0 to |table|
      invariant r == buf + Terminated(done)
      invariant DiffWords(table, diff) == done + DiffWords(table[k..], diff)
    {
      ghost var rest := table[k..];
      assert rest[1..] == table[k + 1..] && rest[0] == table[k];
      if table[k] in diff {
        r := WriteWord(table[k], diff[table[k]], r, buf, done);
        done := done + [DiffWord(table[k], diff[table[k]])];
      }
    }
    assert done + [] == done;
  }

  lemma NothingYet(buf: string)
    ensures buf == buf + Terminated([])
  {
  }

  method WriteWord(name: string, on: bool, r0: string, ghost buf: string, ghost done: seq<string>) returns (r: string)
    requires r0 == buf + Terminated(done)
    ensures r == buf + Terminated(done + [DiffWord(name, on)])
  {
    hide Terminated;
    r := r0;
    if !on { r := r + "-"; }
    r := r + name;
    assert r == r0 + DiffWord(name, on);
    r := r + " ";
    PushWord(buf, done, DiffWord(name, on), r);
  }

  lemma PushWord(buf: string, done: seq<string>, word: string, r: string)
    requires r == buf + Terminated(done) + word + " "
    ensures r == buf + Terminated(done + [word])
  {
    TerminatedConcat(done, [word]);
    assert Terminated([word]) == word + " " + Terminated([word][1..]) == word + " ";
    Assoc(buf, Terminated(done), word + " ");
  }

  // ---- a written diff parses back to itself

  lemma {:induction false} DiffWordsAreWords(table: Table, diff: Diff)
    requires IsTable(table)
    ensures forall k :: 0 <= k < |DiffWords(table, diff)| ==> IsWord(DiffWords(table, diff)[k])
  {
    if table != [] {
      assert IsCapName(table[0]);
      assert IsTable(table[1..]);
      DiffWordsAreWords(table[1..], diff);
    }
  }

  /** The part of a diff that names entries of a table. */
  function Part(diff: Diff, table: Table): Diff
  {
    map name | name in diff && name in table :: diff[name]
  }

  lemma {:induction false} ParseOwnWords(table: Table, rest: Table, diff: Diff, acc: Diff)
    requires IsTable(rest) && forall k :: 0 <= k < |rest| ==> rest[k] in table
    ensures ParseWords(table, DiffWords(rest, diff), acc) == Good(acc + Part(diff, rest))
  {
    if rest == [] {
      assert acc + Part(diff, rest) == acc;
    } else {
      var name, tail := rest[0], rest[1..];
      assert IsCapName(name);
      assert IsTable(tail);
      if name in diff {
        assert Entry(DiffWord(name, diff[name])) == (name, diff[name]) by {
          assert ("-" + name)[1..] == name;
        }
        assert ([DiffWord(name, diff[name])] + DiffWords(tail, diff))[1..] == DiffWords(tail, diff);
        ParseOwnWords(table, tail, diff, acc[name := diff[name]]);
        PartStep(diff, rest, acc);
      } else {
        assert [] + DiffWords(tail, diff) == DiffWords(tail, diff);
        ParseOwnWords(table, tail, diff, acc);
        assert Part(diff, rest) == Part(diff, tail);
      }
    }
  }

  lemma PartStep(diff: Diff, rest: Table, acc: Diff)
    requires rest != [] && rest[0] in diff && rest[0] !in rest[1..]
    ensures acc[rest[0] := diff[rest[0]]] + Part(diff, rest[1..]) == acc + Part(diff, rest)
  {
  }

  /** The acknowledged text of any diff parses back to exactly that diff. */
  lemma AckRoundTrip(table: Table, diff: Diff)
    requires IsTable(table) && forall name :: name in diff ==> name in table
    ensures ParseDiff(table, Spaced(DiffWords(table, diff))) == Good(diff)
  {
    DiffWordsAreWords(table, diff);
    WordsOfSpaced(DiffWords(table, diff));
    ParseOwnWords(table, table, diff, map[]);
    assert map[] + Part(diff, table) == diff;
  }

  // ---- applying a diff

  /** `Capabilities::update`. */
  function Update(enabled: set<string>, diff: Diff): set<string>
  {
    (set c | c in enabled && c !in diff) + (set c | c in diff && diff[c])
  }

  /** The enabled capabilities, in table order. */
  function ListWords(table: Table, enabled: set<string>): seq<string>
  {
    if table == [] then []
    else (if table[0] in enabled then [table[0]] else []) + ListWords(table[1..], enabled)
  }

  /** The diff that enables just these capabilities. */
  function EnabledDiff(enabled: set<string>): Diff
  {
    map c | c in enabled :: true
  }

  /** What is listed is what enabling just these capabilities would be acknowledged with. */
  lemma {:induction false} ListIsDiff(table: Table, enabled: set<string>)
    ensures ListWords(table, enabled) == DiffWords(table, EnabledDiff(enabled))
  {
    if table != [] { ListIsDiff(table[1..], enabled); }
  }

  /** Parsing the LIST text gives exactly the enabled set, all of it enabled. */
  lemma ListRoundTrip(table: Table, enabled: set<string>)
    requires IsTable(table) && forall c :: c in enabled ==> c in table
    ensures ParseDiff(table, Spaced(ListWords(table, enabled))) == Good(EnabledDiff(enabled))
    ensures Update({}, EnabledDiff(enabled)) == enabled
  {
    ListIsDiff(table, enabled);
    AckRoundTrip(table, EnabledDiff(enabled));
  }

  /** One word of a request applied on its own. */
  function ApplyWord(enabled: set<string>, word: string): set<string>
  {
    var (name, on) := Entry(word);
    if on then enabled + {name} else enabled - {name}
  }

  function ApplyWords(enabled: set<string>, words: seq<string>): set<string>
    decreases words
  {
    if words == [] then enabled else ApplyWords(ApplyWord(enabled, words[0]), words[1..])
  }

  lemma {:induction false} UpdateInOrder(table: Table, words: seq<string>, diff: Diff, enabled: set<string>)
    requires ParseWords(table, words, diff).Good?
    ensures Update(enabled, ParseWords(table, words, diff).diff) == ApplyWords(Update(enabled, diff), words)
  {
    if words != [] {
      var (name, on) := Entry(words[0]);
      UpdateInOrder(table, words[1..], diff[name := on], enabled);
      assert Update(enabled, diff[name := on]) == ApplyWord(Update(enabled, diff), words[0]);
    }
  }

  /** Updating with a parsed request is applying its words left to right: the last mention wins. */
  lemma UpdateIsLeftToRight(table: Table, text: string, enabled: set<string>)
    requires ParseDiff(table, text).Good?
    ensures Update(enabled, ParseDiff(table, text).diff) == ApplyWords(enabled, Words(text))
  {
    UpdateInOrder(table, Words(text), map[], enabled);
    assert Update(enabled, map[]) == enabled;
  }

  /** A request is refused, and nothing of it applied, exactly when it names an unknown capability. */
  lemma {:induction false} RefusedIffUnknown(table: Table, words: seq<string>, diff: Diff)
    ensures ParseWords(table, words, diff).Good? <==> forall k :: 0 <= k < |words| ==> Entry(words[k]).0 in table
  {
    if words != [] {
      var (name, on) := Entry(words[0]);
      RefusedIffUnknown(table, words[1..], diff[name := on]);
      if name in table {
        assert forall k :: 1 <= k < |words| ==> words[k] == words[1..][k - 1];
      }
    }
  }

  /** The capability object: which names of the table are enabled. */
  class Capabilities {
    const table: Table
    var enabled: set<string>

    constructor (table: Table)
      ensures this.table == table && enabled == {}
    {
      this.table := table;
      enabled := {};
    }

    method ApplyDiff(diff: Diff)
      requires forall c :: c in diff ==> c in table
      modifies this
      ensures enabled == Update(old(enabled), diff)
    {
      var before := enabled;
      for k := 0 to |table|
        invariant enabled == (set c | c in before && (c !in diff || c !in table[..k]))
                             + (set c | c in diff && c in table[..k] && diff[c])
      {
        assert table[..k + 1] == table[..k] + [table[k]];
        if table[k] in diff {
          enabled := if diff[table[k]] then enabled + {table[k]} else enabled - {table[k]};
        }
      }
      assert table[..|table|] == table;
    }

    /** `Capabilities::write`: a space after every enabled name, and the last space taken back. */
    method Write(buf: string) returns (r: string)
      ensures r == buf + Spaced(ListWords(table, enabled))
    {
      hide Spaced, Terminated;
      r := buf;
      ghost var done: seq<string> := [];
      NothingYet(buf);
      for k := 0 to |table|
        invariant r == buf + Terminated(done)
        invariant ListWords(table, enabled) == done + ListWords(table[k..], enabled)
      {
        ghost var rest := table[k..];
        assert rest[1..] == table[k + 1..] && rest[0] == table[k];
        if table[k] in enabled {
          r := WriteWord(table[k], true, r, buf, done);
          done := done + [table[k]];
        }
      }
      assert done + [] == done;
      if |buf| < |r| {
        assert Terminated(done) != "" && done != [] by { NothingYet(""); }
        TerminatedIsSpaced(done);
        assert r[..|r| - 1] == buf + Spaced(done);
        r := r[..|r| - 1];
      } else {
        NoWords(done);
      }
    }
  }

  lemma CapsAreNames()
    ensures forall i :: 0 <= i < |CAPS| ==> IsCapName(CAPS[i])
  {
  }

  lemma CapsDiffer()
    ensures forall i, j :: 0 <= i < j < |CAPS| ==> CAPS[i] != CAPS[j]
  {
  }

  /** The server's table meets what the round trips ask for. */
  lemma CapsIsTable()
    ensures IsTable(CAPS)
  {
    CapsAreNames();
    CapsDiffer();
  }
}
