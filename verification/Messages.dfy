/** IRC messages: the tokenizer (ellidri-tokens/src/message.rs) and the text the builders write. */
module Messages {
  import opened Text
  import opened Names
  import opened Tags

  const PARAMS_LENGTH := 15
  const CRLF := "\r\n"
  const NUL := '\0'

  const COMMANDS: seq<string> := [
    "ADMIN", "AUTHENTICATE", "AWAY", "CAP", "INFO", "INVITE", "JOIN", "KICK", "KILL", "LIST", "LUSERS",
    "MODE", "MOTD", "NAMES", "NICK", "NOTICE", "OPER", "PART", "PASS", "PING", "PONG", "PRIVMSG", "QUIT",
    "REHASH", "SETNAME", "TAGMSG", "TIME", "TOPIC", "USER", "VERSION", "WHO", "WHOIS"]

  /** A command of the table, or any other word (replies are written this way). */
  datatype Command = Known(name: string) | Other(name: string)

  /** The parts a line is cut into, the command still a word. */
  datatype Tokens = Tokens(tags: string, prefix: Option<string>, word: string, params: seq<string>)

  datatype Message = Message(tags: string, prefix: Option<string>, command: Command, params: seq<string>)

  // ---- the tokenizer

  function IndexOf(s: string, c: char): (i: nat)
    ensures i <= |s| && c !in s[..i]
    ensures i < |s| ==> s[i] == c
  {
    if s == "" || s[0] == c then 0
    else
      var i := IndexOf(s[1..], c) + 1;
      assert s[..i] == [s[0]] + s[1..][..i - 1];
      i
  }

  /** The first word and the text from the second word on, both trimmed. */
  function ParseWord(s: string): (r: (string, string))
    ensures s != "" && !IsWhitespace(s[0]) ==> r.0 != "" && r.0[0] == s[0]
    ensures s != "" ==> |r.1| < |s|
  {
    var i := IndexOf(s, ' ');
    if i == |s| then (Trim(s), "")
    else
      var first, second := Trim(s[..i]), Trim(s[i + 1..]);
      if first != "" then (first, second) else (second, "")
  }

  function ParseTagPart(buf: string): (string, string)
  {
    if buf != "" && buf[0] == '@' then
      var (word, rest) := ParseWord(buf);
      (word[1..], rest)
    else ("", buf)
  }

  function ParsePrefix(buf: string): (Option<string>, string)
  {
    if buf != "" && buf[0] == ':' then
      var (word, rest) := ParseWord(buf);
      (Some(word[1..]), rest)
    else (None, TrimStart(buf))
  }

  /** The first command of the table that equals `word` up to case. */
  function FindCommand(word: string, table: seq<string>): Command
  {
    if table == [] then Other(word)
    else if SameName(word, table[0]) then Known(table[0])
    else FindCommand(word, table[1..])
  }

  /** The parameters in `buf`, at most `room` of them. */
  function ParseParams(buf: string, room: nat): seq<string>
    decreases |buf|
  {
    if room == 0 || buf == "" then []
    else if buf[0] == ':' then [buf[1..]]
    else
      var (word, rest) := ParseWord(buf);
      [word] + ParseParams(rest, room - 1)
  }

  /** The parts of a line, or none when it has no command or holds a NUL. */
  function Tokenize(s: string): Option<Tokens>
  {
    var buf := TrimStart(s);
    if buf == "" || NUL in buf then None
    else
      var (tags, afterTags) := ParseTagPart(buf);
      var (prefix, afterPrefix) := ParsePrefix(afterTags);
      var (word, rest) := ParseWord(afterPrefix);
      if word == "" then None else Some(Tokens(tags, prefix, word, ParseParams(rest, PARAMS_LENGTH)))
  }

  /** `Message::parse`. */
  function Parse(s: string): Option<Message>
  {
    match Tokenize(s)
    case None => None
    case Some(t) => Some(Message(t.tags, t.prefix, FindCommand(t.word, COMMANDS), t.params))
  }

  /** The loop of `Message::parse` that fills a fixed array of parameters. */
  lemma FillStep(before: seq<string>, buf: string, room: nat)
    requires buf != "" && 0 < room
    ensures buf[0] == ':' ==> before + ParseParams(buf, room) == before + [buf[1..]] + ParseParams("", room - 1)
    ensures buf[0] != ':' ==>
              var (w, tail) := ParseWord(buf); before + ParseParams(buf, room) == before + [w] + ParseParams(tail, room - 1)
  {
    hide ParseWord;
  }

  method FillParams(rest: string) returns (params: array<string>, n: nat)
    ensures n <= params.Length == PARAMS_LENGTH
    ensures params[..n] == ParseParams(rest, PARAMS_LENGTH)
  {
    hide ParseWord;
    params := new string[PARAMS_LENGTH](_ => "");
    n := 0;
    var buf := rest;
    while n < PARAMS_LENGTH && buf != ""
      invariant 0 <= n <= PARAMS_LENGTH == params.Length
      invariant params[..n] + ParseParams(buf, PARAMS_LENGTH - n) == ParseParams(rest, PARAMS_LENGTH)
    {
      ghost var before := params[..n];
      FillStep(before, buf, PARAMS_LENGTH - n);
      if buf[0] == ':' {
        params[n] := buf[1..];
        buf := "";
      } else {
        var (w, tail) := ParseWord(buf);
        params[n] := w;
        buf := tail;
      }
      assert params[..n + 1] == before + [params[n]];
      n := n + 1;
    }
  }

  method ParseMessage(s: string) returns (r: Option<Message>)
    ensures r == Parse(s)
  {
    var buf := TrimStart(s);
    if buf == "" || NUL in buf { return None; }
    var (tags, afterTags) := ParseTagPart(buf);
    var (prefix, afterPrefix) := ParsePrefix(afterTags);
    var (word, rest) := ParseWord(afterPrefix);
    if word == "" { return None; }
    var params, n := FillParams(rest);
    return Some(Message(tags, prefix, FindCommand(word, COMMANDS), params[..n]));
  }

  // ---- the text of a message

  /** A message as it is handed to the builders: a prefix, a command, words, a trailing parameter. */
  datatype Line = Line(tags: seq<TagItem>, prefix: string, command: Command, params: seq<string>, trailing: Option<string>)

  /** `MessageBuffer::param`: trimmed, and left out when nothing remains. */
  function ParamText(p: string): string
  {
    if Trim(p) == "" then "" else " " + Trim(p)
  }

  /** The parameters after the command, each with the space before it. */
  function ParamsText(params: seq<string>, trailing: Option<string>): string
  {
    if params != [] then ParamText(params[0]) + ParamsText(params[1..], trailing)
    else if trailing.None? then ""
    else " :" + trailing.value
  }

  function PrefixText(prefix: string): string
  {
    if prefix == "" then "" else ":" + prefix + " "
  }

  function TagPartText(tags: seq<TagItem>): string
  {
    if TagText(tags) == "" then "" else "@" + TagText(tags) + " "
  }

  function Untagged(line: Line): string
  {
    PrefixText(line.prefix) + (line.command.name + ParamsText(line.params, line.trailing))
  }

  function Print(line: Line): string
  {
    TagPartText(line.tags) + Untagged(line) + CRLF
  }

  function AllParams(line: Line): seq<string>
  {
    line.params + if line.trailing.Some? then [line.trailing.value] else []
  }

  function Meaning(line: Line): Message
  {
    Message(TagText(line.tags), if line.prefix == "" then None else Some(line.prefix), line.command, AllParams(line))
  }
}
