# ellidri, verified

ellidri is an IRC server: one mutex around a shared state, a hand-written tokenizer and message
builder, the channel MODE language, a wildcard matcher, a line reader and a rate limiter. This
project models those parts in Dafny and proves what they are for.

| file | part of the server |
|---|---|
| `Text`, `Names` | strings as Rust splits and trims them; case-insensitive names |
| `Glob`, `MaskSets` | the mask matcher, and a set of masks stored as one comma-joined string |
| `Modes`, `Channels` | the MODE parser and printer; channel data and the interpreter of changes |
| `Tags`, `Messages`, `RoundTrip`, `Spacing`, `Nicknames`, `Builders`, `Replies`, `Wire` | tokenizer, builders, tag escaping and stripping, labeled responses, the MODE notice as a line |
| `Reader`, `RateLimit` | line framing and the throughput limit of a connection |
| `Registration`, `Caps`, `Rehash` | the connection states, capability requests, rebinding on rehash |
| `Server` | what every request does to the shared state, as functions over values |
| `SharedState` | the object `StateInner`, whose methods do the same in place, loop by loop |
| `ServerInvariant`, `Connections`, `Mirror`, `Notifications`, `Privilege`, `Kicks` | what holds of every run of the server |
| `Gate`, `Records`, `Admission`, `Ranks`, `ModeMeanings` | what each request comes to for the clients: who is served, what is kept of it, who gets in, and what every mode means |
| `Pace` | which clients the limiter delays, and for how long |

Strings are sequences of characters. A map keyed by `UniCase<String>` is a map keyed by the
lower-cased name (`Names.SameNameIsSameKey`). What a client is told is a queue of events; a run is a
sequence of inputs: a connection arrives under some free identifier (used before or not), sends a
request or a malformed line, hangs up, or runs out of time to register. The order in which a hash
map is walked is arbitrary everywhere. `SharedState.StateInner` keeps its history as a ghost field, so
every statement about runs holds of the object between any two calls.

The main results:

- after every run, each client on a channel can tell from its own queue alone who is on it
  (`Mirror.MembershipMirror`), and the nick index, the members and the invitations are in order, so
  that no lookup of a handler fails (`Connections.ReachableInvariant`, and the preconditions that the
  methods of `StateInner` meet before they index a map);
- the notice of a MODE request is a faithful delta of the channel (`Channels.NoticeIsFaithfulDelta`),
  and as a line it tells the applied changes exactly when their parameters are words, for every request
  that a line can bring (`Wire.RequestOverTheWire`);
- the greedy matcher decides the declarative meaning of a mask, both ways (`Glob.MatchMask`);
- a printed message parses back to itself exactly when its parameters are words, at most one free text
  follows them, and the parser has room for them (`RoundTrip.PrintParseIff`);
- lines do not depend on how the bytes arrive, and the reader errors exactly when a line of the stream is spread
  over too many reads or passes its limit between two of them (`Reader.IrcReader.ReadAll`); the limiter bounds what
  is served in every run and every window (`RateLimit.ThroughputBound`, `RateLimit.WindowBound`), delays exactly what
  exceeds the burst (`Pace.DelayedIff`), and never a client that keeps within it (`Pace.ConformingIsNeverDelayed`);
- a client gets onto a channel exactly when key, limit, invitation and bans allow it, and else is told the first
  obstacle (`Admission.JoinsIff`); each mode letter is tied to what JOIN, NAMES and the rank tests make of it
  (`ModeMeanings`), and what a member may ask of MODE is decided by its rank and the letters (`Ranks.RankDecides`);
- a request is served exactly when the nickname and the requests accepted so far allow it, and else answered with the
  right numeric (`Gate.ServedIff`); a newcomer with the password, a free nickname and USER registers
  (`Records.NewcomerRegisters`);
- a channel without an operator gets no operator or halfop until it is emptied or an IRC operator
  on it steps in (`Privilege.NoOperatorFromNowhere`), and who is an IRC operator is decided by the OPER and
  MODE requests accepted from it (`Privilege.OperatorIsEarned`);
- a connection registers exactly when a NICK and a USER were accepted that no opening of a capability
  negotiation followed, with none open (`Registration.RegisteredIff`, `Connections.RegistrationSafety`).

Where the code and its own documentation, or the obvious reading of it, disagree, the model follows
the code:

- `save_tag_len` looks at the last character of the buffer, so a tag section ending in `@` is taken for
  an empty one: stripping is exact if and only if it does not end so (`Builders.StrippingIsExact`). What the
  server relays never does, since nobody has an account and a time ends in Z (`Builders.ServerRelaysStrip`); the
  builder allows it (`Builders.AtSignIsNotStripped`);
- opening a capability negotiation forgets a NICK or USER given before it: an accepted NICK, USER and
  CAP END do not register by themselves (`Registration.NickBeforeCapIsForgotten`), and `Registration.RegisteredIff`
  says exactly when they do;
- the notice of a key or mask with a space in it does not survive the line, because `MessageBuffer::param`
  only trims (`Wire.SpacedKeyIsLost`); `Wire.RequestOverTheWire` says exactly which requests' notices do;
- MODE accepts a mask with a comma, which can list a mask twice; one removal is then announced while the mask
  stays in force (`Channels.RemovedBanStays`). Removal deletes a mask exactly when it is listed at most once
  (`MaskSets.RemoveIsSetDelete`);
- a label is taken over escaped and escaped again, so it comes back as sent exactly when it holds no backslash
  (`Replies.LabelEchoed`);
- a query for invitation masks is answered with the exception masks (`Channels.InvitationsAreNotListed`), which is
  the right answer exactly when both lists are the same text (`Channels.InvitationsAreListedIff`);
- the rank letters of MODE compare nicknames letter by letter, where every other request folds case: +o, +h and +v
  work for a member exactly when it spells its nickname so (`ModeMeanings.OperatorSets`, `ModeMeanings.SpellingDecides`);
- a refill of the limiter rounds down and forgets the remainder, so a client within the burst and the rate in every
  window may still be delayed (`Pace.RefillRoundsDown`); one point per request to spare is enough not to be;
- the maximum length of a line is looked at between reads only, so a line that ends in its first read may have any
  length (`Reader.OneReadIsUnlimited`); `Reader.IrcReader.ReadLine` says exactly which lines are given up on;
- `Channel::new` is documented to panic on an invalid mode string; without parameters no mode can be
  refused, so it never does (`Channels.DefaultModesNeverRefused`);
- removing the last mask of a list leaves an empty entry, which is never a mask (`MaskSets.RemoveIsSetDelete`);
- KICK leaves an emptied channel behind (`Kicks.CreatorKicksItself`), while PART, JOIN 0 and a disconnection drop it: an
  input leaves a channel without members exactly when it is a KICK by an operator of it that names every member
  (`Kicks.EmptiedIff`);
- a kicked client gets no KICK (`Kicks.KickedIsNotTold`), so the mirror speaks of clients while they are members.

## Model

| member | source | states |
|---|---|---|
| Names.SameNameIsSameKey | ellidri-unicase/src/lib.rs:180-207 | two names are equal up to case exactly when they hash as the same canonical text |
| Names.NicknameIsNotPlaceholder | src/data/strings.rs:29-45 | no accepted nickname equals, even up to case, the placeholder of a client that has none |
| Glob.ScanChunk | src/util.rs:95-104 | a mask is a run of stars, a chunk without stars, and a rest that is empty or starts with a star |
| Glob.MatchChunk | src/util.rs:106-121 | succeeds exactly when the chunk stands at the front of the subject, and leaves what follows it |
| Glob.LeftmostSuffices | src/util.rs:63-93 | after a star, if the mask matches at all it matches from the leftmost place where the chunk fits |
| Glob.FirstFitDecides | src/util.rs:76-87 | the first place the restart loop accepts decides whether the mask matches, at the end of the mask too |
| Glob.FindLater | src/util.rs:76-89 | the restart loop finds a place to go on from that decides the match, or there is no match |
| Glob.MatchMask | src/util.rs:63-93 | the greedy matcher returns true exactly when the mask matches: star any run, question mark one character, others themselves; every round shortens the mask |
| MaskSets.InsertIsSetAdd | src/util.rs:25-37 | inserting a mask adds it to the set, keeps the list free of duplicates, and reports a change exactly when it was no member |
| MaskSets.RemoveTakesOne | src/util.rs:39-55 | for every list, removing takes out exactly one listing of the mask, empty entries notwithstanding, and keeps a list free of duplicates so |
| MaskSets.RemoveIsSetDelete | src/util.rs:39-55 | for every list and mask, removing deletes the mask from the set and nothing else if and only if it is listed at most once; otherwise the set stays as it was |
| MaskSets.RemovedMaskStays | src/util.rs:25-55 | adding a, then b,a, then removing a leaves a in the set |
| MaskSets.MatchIsSomeMember | src/util.rs:21-23 | on a non-empty subject the set matches exactly when some member mask matches |
| MaskSets.CutOut | src/util.rs:41-49 | cutting the entry found and the separator after it leaves the joined string of the other entries |
| MaskSets.MaskSet.IsMatch | src/util.rs:21-23 | the loop over the entries answers whether some member matches |
| MaskSets.MaskSet.Insert | src/util.rs:25-37 | the edited string stands for the set with the mask added |
| MaskSets.MaskSet.FindEntry | src/util.rs:41-44 | finds the offset of the first entry equal to the mask, if there is one |
| MaskSets.MaskSet.Remove | src/util.rs:39-55 | the edited string stands for the set with the mask deleted if it was listed at most once, else for the same set; the result says whether it was a member |
| Modes.ChannelQuery.NextLetter | ellidri-tokens/src/mode.rs:34-57 | gives the next letter with the sign in force before it, and nothing else is consumed |
| Modes.ChannelQuery.Next | ellidri-tokens/src/mode.rs:220-306 | gives the items of a request one by one, in order, each letter taking its parameter |
| Modes.ServesIff | ellidri-tokens/src/mode.rs:232-305 | printed letters with any parameters ask for the changes exactly when each finds its own parameter, or none is left and it is a bare -k |
| Modes.ParsedArePrintable | ellidri-tokens/src/mode.rs:220-306 | every change a request parses to is a list query or carries no empty parameter |
| Modes.ParsePrinted | ellidri-tokens/src/mode.rs:145-202 | parsing the letters and parameters printed for some changes gives back exactly those changes, in order |
| Channels.UnappliedKeeps | src/channel.rs:244-365 | a change that is refused or has no effect leaves the channel as it was; no change adds or removes a member or an invitation |
| Channels.FindMember | src/channel.rs:320-329 | the walk over the members, in any order, finds the one with the nickname if there is one |
| Channels.ChangeMask | src/channel.rs:299-319 | adding a mask adds it to the set, removing one listed at most once deletes it; applied means it was no member, or was one |
| Channels.RemovedBanStays | src/channel.rs:299-305 | after +b a and +b b,a the change -b a is applied and a is still banned |
| Channels.InvitationsAreListedIff | src/state/v1.rs:522-530 | the query for invitation masks is answered with them exactly when the exception masks are the same text |
| Channels.InvitationsAreNotListed | src/state/v1.rs:522-530 | after +I a the query lists one empty line, where the list of invitation masks is a |
| Channels.ListMasks | src/state/v1.rs:489-494 | one line for every entry of the list, and the end of the list |
| Channels.ApplyItem | src/state/v1.rs:502-570 | one item: the channel after it, what the issuer is answered, and whether it goes into the notice |
| Channels.ApplyModeChange | src/channel.rs:244-365 | one change: the new channel, and whether it was applied, useless, or refused |
| Channels.DefaultModesNeverRefused | src/channel.rs:146-150 | no mode string without parameters makes the creation of a channel panic |
| Channels.NewChannelIsEmpty | src/channel.rs:130-152 | a new channel has no member and no invitation, whatever the configured modes |
| Channels.CreateChannel | src/channel.rs:130-152 | the channel that the configured modes describe |
| Channels.TestBan | src/channel.rs:179-183 | banned means some ban mask matches and no exception or invitation mask does |
| Channels.TestInvitation | src/channel.rs:185-187 | on an invite-only channel the invited and those matching an invitation mask may enter |
| Channels.AppliedArePrintable | src/state/v1.rs:502-544 | every change that gets applied can be printed in the notice |
| Channels.Replay | src/state/v1.rs:502-571 | the applied changes alone, replayed on the old channel, are all applied and lead to the same channel |
| Channels.NoticeIsFaithfulDelta | src/state/v1.rs:498-571 | for every request: parsing the notice gives exactly the applied changes in order, and replaying it on the old channel reaches the final channel |
| Channels.Notice.Push | src/state/v1.rs:533-543 | letters and parameters grow to the print of one more change, with a sign only where it changes |
| Channels.ApplyRequest | src/state/v1.rs:498-571 | the loop gives the final channel, the answers to every item in order, and the print of the applied changes |
| Tags.WriteEscaped | ellidri-tokens/src/buffers.rs:130-149 | appends the escaped value |
| Tags.UnescapeValue | ellidri-tokens/src/message.rs:150-165 | gives the unescaped value, a lone final backslash dropped |
| Tags.UnescapeEscape | ellidri-tokens/src/buffers.rs:138-147 | unescaping the escaped text gives the value back, for every value |
| Tags.EscapeIsClean | ellidri-tokens/src/buffers.rs:138-147 | the escaped text holds no semicolon, space, CR or LF, and is empty only for the empty value |
| Tags.EscapeKeeps | ellidri-tokens/src/buffers.rs:138-147 | escaping leaves a value as it is exactly when no character of it is escaped |
| Tags.ReadValuePlain | ellidri-tokens/src/message.rs:180-184 | a value read off the tags of a line needs an escape only for a backslash |
| Tags.TagsRoundTrip | ellidri-tokens/src/message.rs:180-184 | reading a built tag section gives the same keys and escaped values in order, an empty value as none |
| Tags.ValueRoundTrip | ellidri-tokens/src/message.rs:100-108 | a written tag reads back with its key, and its value unescapes to what was written |
| Messages.FillParams | ellidri-tokens/src/message.rs:281-296 | the parameter loop fills the array with the parameters of the rest of the line, at most fifteen |
| Messages.ParseMessage | ellidri-tokens/src/message.rs:267-305 | the parts of a line, or none when there is no command or a NUL |
| RoundTrip.LineCut | ellidri-tokens/src/message.rs:267-305 | a printed line, whatever its parameters, is cut into its tags, prefix and command, and the parameters read off its end |
| RoundTrip.CommandRoundTrip | ellidri-tokens/src/message.rs:51-54 | a command's own spelling is recognised as that command, and an unknown word as itself |
| RoundTrip.CommandIff | ellidri-tokens/src/message.rs:51-54 | a word is a command of the table exactly when it spells its name in any case, and else stands for itself |
| RoundTrip.AnyCaseIsRead | ellidri-tokens/src/message.rs:267-310 | a line whose command is spelled in any case is read as that command |
| Spacing.SpacesDoNotMatter | ellidri-tokens/src/message.rs:16-43 | a line is read the same with any number of spaces in front of it and between its parts |
| Nicknames.OwnMask | src/data/strings.rs:29-45 | a nickname used as a mask is one mask and matches exactly itself |
| Nicknames.OneWord | src/data/strings.rs:29-45 | a nickname is one word of a line unless it holds a NUL or has white space at an end |
| RoundTrip.FittingSurvive | ellidri-tokens/src/buffers.rs:43-105 | words and one free text without white space at its end are read back as they were written |
| RoundTrip.OnlyFittingSurvive | ellidri-tokens/src/buffers.rs:43-105 | parameters that are read back as written are words, one free text without white space at its end, and fit |
| RoundTrip.PrintParseIff | ellidri-tokens/src/buffers.rs:13-124 | printing then parsing is the identity exactly when the command is one its word stands for, the parameters are words, at most one free text ends them, and there are at most fifteen |
| Builders.Builder.Tag | ellidri-tokens/src/buffers.rs:172-183 | the tag section grows by the key and its escaped value, after a semicolon unless it was empty |
| Builders.Builder.ClientTags | ellidri-tokens/src/buffers.rs:334-339 | of a client's tags exactly the client-only ones are written, in order |
| Builders.Builder.SaveTagLen | ellidri-tokens/src/buffers.rs:197-204 | saves zero when the buffer ends in an at sign, else the length of the tags with the at sign and the space |
| Builders.Builder.PrefixedCommand | ellidri-tokens/src/buffers.rs:206-214 | the at sign of an empty section is taken back, a non-empty section gets its space; then prefix and command |
| Builders.Builder.Param | ellidri-tokens/src/buffers.rs:43-51 | a parameter is written trimmed, and not at all when blank |
| Builders.Builder.TrailingParam | ellidri-tokens/src/buffers.rs:101-105 | a free text is written as it is |
| Builders.MessageBuild | src/state/v1.rs:1352-1376 | the relayed item is the printed line with client tags first, and the saved offset |
| Builders.StrippingIsExact | ellidri-tokens/src/buffers.rs:197-214 | from the saved offset a recipient reads exactly the message built without tags if and only if the tag section does not end in an at sign |
| Builders.RelayedTagsStrip | src/state/v1.rs:1352-1376 | a relayed message can be stripped exactly when its account, or without one its time, does not end in an at sign |
| Builders.ServerRelaysStrip | src/state/v1.rs:1352-1376 | with a time that ends in Z and no account, which is all the server writes, every relayed message can be stripped |
| Builders.AtSignIsNotStripped | ellidri-tokens/src/buffers.rs:197-204 | any tags followed by one whose value ends in an at sign cannot be stripped |
| Replies.ResponseIsExact | ellidri-tokens/src/buffers.rs:359-438 | every run of replies and batch requests ended by `lr_end` writes exactly the response of its shape, closes its batch, and does not panic |
| Replies.LabelOnFirstOnly | ellidri-tokens/src/buffers.rs:375-438 | a non-empty label is on the first message, an ACK if nothing else was written, and on no other |
| Replies.BatchAroundReplies | ellidri-tokens/src/buffers.rs:402-455 | an opened batch is first and closed last, and all messages strictly between carry its identifier |
| Replies.NoLabelNoTags | ellidri-tokens/src/buffers.rs:375-438 | without a label no message gains a label or a batch |
| Replies.LabelEchoed | src/state/mod.rs:276-282 | the label of a request comes back as it was sent exactly when it holds no backslash; unescaped it is always the text that was sent |
| Replies.ReplyBuffer.TaggedMessage | ellidri-tokens/src/buffers.rs:375-388 | a message takes the label if it is still to be given, and the batch in force |
| Replies.ReplyBuffer.LrBatchBegin | ellidri-tokens/src/buffers.rs:402-422 | opens the labeled batch once, using up the label |
| Replies.ReplyBuffer.NewBatch | ellidri-tokens/src/buffers.rs:488-492 | batches are numbered from zero |
| Replies.ReplyBuffer.EndBatch | ellidri-tokens/src/buffers.rs:447-455 | closes the innermost batch with a message of its own |
| Replies.ReplyBuffer.LrEnd | ellidri-tokens/src/buffers.rs:424-438 | closes the batch, acknowledges an empty labeled response, never panics after a response |
| Replies.ReplyBuffer.Respond | ellidri-tokens/src/buffers.rs:359-438 | a whole response on the object is the exact response |
| Wire.NoticeOverTheWire | src/state/v1.rs:573-594 | a member reads the notice off its line unaltered exactly when each parameter is a word and there are at most thirteen, and then reads the applied changes in order |
| Wire.ChangesOverTheWire | src/state/v1.rs:573-594 | a member reads the applied changes off the line exactly when their parameters are words and only a bare -k has one past the thirteenth |
| Wire.AppliedFromRequest | src/state/v1.rs:498-571 | the applied changes carry the request's parameters, a bare -k aside; if those are words, so are theirs |
| Wire.RequestOverTheWire | src/state/v1.rs:498-594 | for every request of at most thirteen parameters the changes read back exactly when those of the applied ones are words, and words in the request suffice; what is read then leads to the final channel |
| Wire.OneMoreParam | src/state/v1.rs:533-543 | a notice has at most one parameter more than its request |
| Wire.WordsStayWords | src/state/v1.rs:498-594 | a request of at most twelve words is announced by a line that reads back word for word |
| Wire.SpacedKeyIsLost | src/state/v1.rs:573-581 | a key with a space in it, set through a trailing parameter on any channel without a key, is announced but not read back |
| Reader.IrcReader.SetLimit | ellidri-reader/src/lib.rs:136-141 | the first byte of a line sets its limit, longer for a line with tags |
| Reader.IrcReader.Scan | ellidri-reader/src/lib.rs:143-153 | takes the bytes up to the first line end, with the LF after it when it is at hand, or all that is available |
| Reader.FramedKeepsLines | ellidri-reader/src/lib.rs:143-153 | the lines of a stream are the line just read and the lines of what is left, a CR LF cut in two included |
| Reader.IrcReader.ReadLine | ellidri-reader/src/lib.rs:117-162 | the line up to its end is read; it is too long exactly when one, two or three fragments without a line end reach its limit, and abuse exactly when four hold no line end and that is not so |
| Reader.IrcReader.ReadAll | ellidri-reader/src/lib.rs:117-162 | every call succeeds exactly when no line of the stream, from where it starts, is one to give up on; then the non-blank lines are those of the stream, however it was cut into reads |
| Reader.LimitIsSetOnce | ellidri-reader/src/lib.rs:136-141 | a limit that is not zero is the one that the first byte of the line sets, however many reads follow |
| Reader.TagsGetMoreRoom | ellidri-reader/src/lib.rs:136-141 | a line of two reads is too long exactly when the first is as long as the limit, which is 4096 bytes more after an at sign |
| Reader.OneReadIsUnlimited | ellidri-reader/src/lib.rs:125-162 | a line that ends in its first fragment is never given up on, whatever its length |
| Reader.WholeLinesAreReadable | ellidri-reader/src/lib.rs:125-162 | if every fragment ends with a line end, all of the stream is read |
| RateLimit.ServerConfigFits | src/net.rs:228 | the rate and burst of the server meet the conditions of the arithmetic |
| RateLimit.NoOverflow | src/net.rs:186-206 | with requests of up to 999999 points no 32-bit operation of an iteration overflows |
| RateLimit.StepPays | src/net.rs:186-212 | an iteration keeps the bucket within the burst, and points that left it are paid for by the limiter's clock |
| RateLimit.ThroughputBound | src/net.rs:178-215 | in every run the points served are at most the burst and one per `rate` milliseconds elapsed |
| RateLimit.WindowBound | src/net.rs:178-215 | between any two iterations they are at most two bursts, the largest request, and one per `rate` milliseconds |
| RateLimit.Limiter.Turn | src/net.rs:186-212 | one iteration in 32-bit arithmetic computes the step, keeps the invariant, and returns the delay by which the round ends later |
| Pace.DelayedIff | src/net.rs:194-212 | a request is delayed exactly when bucket and request exceed the burst by more than the time since the last refill is worth, and then `rate` milliseconds for each point in excess |
| Pace.DelayCost | src/net.rs:205-210 | a delay is at most `rate` milliseconds for each point over the burst |
| Pace.IdleIsForgiven | src/net.rs:194-204 | after an idle time that pays for the burst a request of up to the burst is not delayed |
| Pace.PacedIsNeverDelayed | src/net.rs:178-215 | a client whose every request comes after the time it costs is never delayed |
| Pace.ConformingIsNeverDelayed | src/net.rs:178-215 | a client whose points in every window, with one more per request after the first, are within the burst and what the window pays for is never delayed |
| Pace.RefillRoundsDown | src/net.rs:202-203 | without the extra point a client within burst and rate can be delayed |
| Pace.ServerConfigIsRoomy | src/net.rs:227 | the rate and burst of the server meet the condition of these bounds |
| Caps.TryFrom | src/data/cap.rs:73-91 | parses a request word by word, refusing it at the first unknown name |
| Caps.WriteDiff | src/data/cap.rs:48-71 | appends the words of the diff separated by single spaces |
| Caps.AckRoundTrip | src/data/cap.rs:48-91 | parsing the acknowledged text of any diff gives that diff back |
| Caps.Capabilities.Write | src/data/cap.rs:113-128 | appends the enabled names in table order separated by single spaces |
| Caps.ListIsDiff | src/data/cap.rs:113-128 | the listed words are those of the diff that enables just these capabilities |
| Caps.ListRoundTrip | src/data/cap.rs:113-128 | parsing the listed text gives exactly the enabled set, each of it enabled |
| Caps.UpdateIsLeftToRight | src/data/cap.rs:76-111 | updating with a parsed request is applying its words left to right, the last mention winning |
| Caps.RefusedIffUnknown | src/data/cap.rs:76-90 | a request is refused exactly when it names an unknown capability |
| Caps.Capabilities.ApplyDiff | src/data/cap.rs:99-111 | the enabled set becomes the updated one, capabilities the diff does not name untouched |
| Caps.CapsIsTable | src/data/cap.rs:133-150 | the server's capability names are distinct words that do not start with a dash |
| Rehash.DropStale | src/control.rs:163-174 | keeps exactly the old bindings whose address is still wanted, for every order `swap_remove` produces |
| Rehash.Settle | src/control.rs:176-199 | one wanted binding keeps its old listener when the command is sent, else replaces it by a new one |
| Rehash.Reconcile | src/control.rs:163-199 | for every pattern of failing sends exactly the wanted addresses are bound, without duplicates if there were none; a kept one keeps its handle, every other is spawned once |
| Registration.RegistrationIsEarned | src/client.rs:67-142 | registration takes an accepted NICK and USER and no negotiation left open |
| Registration.RegisteredOnce | src/client.rs:67-142 | a registered connection became so at exactly one request and stays so |
| Registration.StateIsMemory | src/client.rs:67-142 | up to registration the states are exactly whether NICK and USER were given and a negotiation is open, where opening one forgets both |
| Registration.MemoryIsLog | src/client.rs:67-142 | those facts are: some accepted NICK, some accepted USER, that no opening of a negotiation followed, and a CAP LS or REQ that no CAP END followed |
| Registration.RegisteredIff | src/client.rs:67-142 | a connection becomes registered exactly when such a NICK and such a USER were accepted and no negotiation is open |
| Registration.PassComesFirst | src/client.rs:135-139 | every accepted PASS came before the registration |
| Registration.OperIsEarned | src/client.rs:396-410 | by its accepted requests a client is an IRC operator exactly when some OPER was not followed by giving it up |
| Registration.NickBeforeCapIsForgotten | src/client.rs:79-100 | NICK, CAP LS, USER, CAP END does not register |
| ServerInvariant.DistinctNicks | src/state/mod.rs:502-517 | no two registered clients have the same nickname up to case |
| ServerInvariant.RemoveMembers | src/state/mod.rs:259-262 | a removed client is off every channel, invitations and other members stay, and with a registered client exactly the channels then empty go |
| ServerInvariant.RemoveCore | src/state/mod.rs:243-268 | removing a client keeps the nick index the exact inverse of the nicknames and every member a live client |
| ServerInvariant.NickCore | src/state/v1.rs:698-741 | a NICK, a change of case included, keeps the nick index the exact inverse of the nicknames |
| ServerInvariant.EnterCore | src/state/v1.rs:258-264 | joining keeps the invariant: the new member is live and its invitation is used up |
| ServerInvariant.PartCore | src/state/v1.rs:775-835 | PART keeps the invariant over any list of channels |
| ServerInvariant.PartEverywhereCore | src/state/v1.rs:837-872 | JOIN 0 keeps the invariant whatever the order of the walk |
| ServerInvariant.KickCore | src/state/v1.rs:319-373 | KICK keeps the invariant over any list of nicknames, the kicker's own included |
| ServerInvariant.InviteCore | src/state/v1.rs:78-143 | an invited client is live and no member |
| ServerInvariant.RanksKept | src/channel.rs:320-361 | no MODE request changes who is founder or protected |
| ServerInvariant.ModeCore | src/state/v1.rs:460-597 | MODE keeps the invariant |
| ServerInvariant.UserModesShape | src/state/v1.rs:615-632 | MODE on a user touches two flags: it drops the operator flag exactly when asked to, and never gives it |
| ServerInvariant.DispatchCore | src/state/mod.rs:364-421 | every modelled handler keeps the invariant |
| Connections.DispatchEffects | src/state/mod.rs:364-421 | a handler changes other clients only by what it tells them, never their state, and welcomes nobody |
| Connections.AdvanceNeverFails | src/state/mod.rs:428-431 | after the gate the issuer's state can still advance, so the `unwrap` in `apply_request` never fails |
| Connections.StepClientsOk | src/state/mod.rs:270-451 | every input keeps each connection's state the one its accepted requests lead to, with one welcome if registered |
| Connections.StepCore | src/state/mod.rs:219-268 | every input keeps the state invariant, a reused identifier included |
| Connections.ReachableInvariant | src/state/mod.rs:219-451 | after every run: the nick index is the exact inverse of the nicknames, members are live registered clients, nobody is invited and a member, nobody is founder or protected |
| Connections.RegistrationSafety | src/state/mod.rs:346-441 | after every run a registered client became so at one request and stayed so; by then it had a NICK and a USER accepted that no opening of a negotiation followed, none was open, and under a password the right PASS was given; it is indexed and was welcomed once |
| Mirror.EnterMirror | src/state/v1.rs:196-237 | a join leaves every member, the new one included, seeing exactly the members |
| Mirror.JoinMirror | src/state/v1.rs:239-279 | JOIN keeps every view right over any list of channels |
| Mirror.PartMirror | src/state/v1.rs:775-835 | PART keeps every view right |
| Mirror.PartEverywhereMirror | src/state/v1.rs:837-872 | JOIN 0 keeps every view right |
| Mirror.KickMirror | src/state/v1.rs:283-373 | KICK keeps every remaining member's view right, whatever spelling of the nickname was used |
| Mirror.RemoveTold | src/state/mod.rs:251-263 | a quit puts one copy on the queue of each client sharing a channel and none elsewhere |
| Mirror.RemoveMirror | src/state/mod.rs:243-268 | a disconnection keeps every view right |
| Mirror.NickMirror | src/state/v1.rs:698-741 | a change of nickname keeps every view right |
| Mirror.DispatchMirror | src/state/mod.rs:364-421 | every modelled handler keeps every view right, replies not yet sent included |
| Mirror.StepMirror | src/state/mod.rs:219-460 | every input keeps every view right |
| Mirror.MembershipMirror | src/state/v1.rs:196-221 | after every run, folding the events on a member's queue gives exactly the nicknames of the channel's members, up to case |
| Notifications.HandleHeard | src/state/mod.rs:270-451 | every QUIT, KILL, NICK, AWAY and SETNAME of a registered client, replies included, is heard once by exactly those it concerns; a refused or useless one by nobody else |
| Notifications.QuitHeard | src/state/mod.rs:243-263 | a QUIT reaches exactly the other live clients that share a channel, one copy each |
| Notifications.NickHeard | src/state/v1.rs:698-741 | a NICK reaches exactly those that share a channel, one copy each, and the issuer as a reply; a refused or useless one changes nothing |
| Notifications.AwayHeard | src/state/v1.rs:33-61 | an AWAY reaches exactly those that share a channel and enabled away-notify, one copy each |
| Notifications.SetNameHeard | src/state/v3.rs:66-93 | a SETNAME reaches exactly those that share a channel and enabled setname, one copy each |
| Privilege.DispatchShrinks | src/state/mod.rs:364-421 | no handler but JOIN and MODE adds a member to a channel or changes a member's modes |
| Privilege.JoinLeaderless | src/state/v1.rs:239-279 | joining a channel that has members gives no rank |
| Privilege.ModeLeaderless | src/state/v1.rs:477-571 | nobody without rank on the channel promotes anybody, unless an IRC operator who is on it |
| Privilege.ModeRefusedIff | src/state/v1.rs:477-487 | MODE is refused, with nothing changed and nobody told, exactly when the issuer is no IRC operator and some change is above its rank |
| Privilege.StepLeaderless | src/state/mod.rs:219-460 | no input but the MODE of an IRC operator on it gives a non-empty channel without operator an operator or a new halfop |
| Privilege.NoOperatorFromNowhere | src/channel.rs:154-169 | over whole runs such a channel gains none until it is emptied or an IRC operator who is on it issues MODE on it |
| Privilege.OperatorIsEarned | src/state/v1.rs:745-771 | in every run a client is an IRC operator exactly when an OPER with a name and password of the configuration was accepted from it and not given up by MODE since |
| Privilege.FounderNeverSet | src/channel.rs:154-169 | in every run nobody is founder or protected |
| Kicks.OnlyKickEmpties | src/state/v1.rs:319-373 | whatever input but KICK: a channel without members after it had none before |
| Kicks.KickTakesNamed | src/state/v1.rs:348-370 | KICK takes exactly the registered clients named off the channel, and changes nothing else of any channel |
| Kicks.EmptiedIff | src/state/v1.rs:319-373 | a channel loses its last member and stays exactly at a KICK by an operator of it that names every member |
| Kicks.PeopledWithoutKick | src/state/mod.rs:259-262 | in a run without KICK no channel that has members, or is new, is ever without |
| Kicks.CreatorKicksItself | src/state/v1.rs:319-373 | who creates a channel and then kicks itself leaves a channel without members |
| Kicks.KickedIsNotTold | src/state/v1.rs:348-361 | of the KICKs that come to another client's queue none is its own |
| Gate.RegisteredIsServed | src/client.rs:135-139 | a registered client is served whatever it asks, PASS, USER and a bad nickname aside |
| Gate.UnregisteredIsServed | src/client.rs:66-134 | a client that is not registered is served NICK, PASS, PING, AUTHENTICATE, CAP LS, REQ and END, QUIT, and USER once; all else gives 451 |
| Gate.ServedIff | src/state/mod.rs:291-343 | who is served, for every state of a connection, and which numeric the others get |
| Gate.ServedIsRecorded | src/state/mod.rs:423-450 | a served request leaves the replies on the queue, itself on record if it succeeded, and a registration with its welcome once its requests are complete |
| Records.OperDecides | src/state/v1.rs:745-771 | OPER makes an IRC operator of whoever gives a configured name and password, and else answers 464 |
| Records.AwayDecides | src/state/v1.rs:33-61 | AWAY keeps the cut message or drops it; repeating either fails |
| Records.SetNameDecides | src/state/v3.rs:66-93 | SETNAME keeps the name unless it is empty or too long |
| Records.CapReqDecides | src/state/v3.rs:37-52 | what the diff enables is enabled, what it disables is not, all else as before |
| Records.ModeUserDecides | src/state/v1.rs:599-655 | i makes invisible or visible, -o gives up the operator flag, +o and a do nothing, other letters give 501, other users 502 |
| Records.NickDecides | src/state/v1.rs:698-738 | NICK gives the nickname unless another client has it up to case |
| Records.PassDecides | src/state/v1.rs:876-882 | a client has given the password once it gave the right one |
| Records.UserDecides | src/state/v1.rs:1017-1033 | USER keeps its cut names, or removes a client without the password asked for |
| Records.NewcomerRegisters | src/client.rs:67-142 | PASS, NICK and USER register a new connection whose nickname is free, in every state of the server |
| Records.PartDecides | src/state/v1.rs:775-836 | PART takes its issuer, and nobody else, off the channels it names, and off no other |
| Admission.JoinDecides | src/state/v1.rs:147-194 | after JOIN a client is on the channel exactly when it is new or key, limit, invitation and bans allow it; else nothing changes and the numeric is that of the first obstacle |
| Admission.JoinsIff | src/state/v1.rs:239-279 | the same for the whole request, with the numeric on the client's queue |
| Admission.JoinEnters | src/state/v1.rs:260-270 | the one who enters is an operator if nobody else is there and has no rank otherwise, uses its invitation up, and gets the names |
| Admission.JoinAgain | src/state/v1.rs:154-157 | JOIN on a channel the client is on does nothing |
| Admission.JoinInTurn | src/state/v1.rs:242-271 | the channels of a JOIN are joined one after the other |
| Admission.JoinIsTold | src/state/v1.rs:196-237 | every member there was hears of the JOIN once, with the away message if it asked for those, and nobody else |
| Admission.NamesStep | src/state/mod.rs:634-672 | NAMES lists the nicknames of all members unless the channel is secret to its issuer |
| Admission.FoundIff | src/state/mod.rs:502-517 | the client found under a nickname is the registered one that has it up to case |
| Admission.InviteDecides | src/state/v1.rs:78-143 | INVITE works exactly when the issuer may and the guest is neither member nor invited; the invitation is recorded and told to those it concerns |
| Admission.InviteNobody | src/state/v1.rs:79 | nobody is invited under a nickname that no registered client has |
| Admission.InvitationOpens | src/channel.rs:185-187 | an invitation opens an invite-only channel to the one invited and changes admission for nobody else |
| Ranks.RankDecides | src/channel.rs:67-86 | operators of the channel and IRC operators may ask anything, a halfop list queries and m, t, l, b, e, I, v, other members list queries only, which change nothing |
| ModeMeanings.InviteOnlySets | src/channel.rs:254-257 | +i and -i set one flag and nothing else |
| ModeMeanings.InviteOnlyMeans | src/channel.rs:185-187 | after +i only those invited by name or mask get in; after -i an invitation does not matter |
| ModeMeanings.SecretSets | src/channel.rs:266-269 | +s and -s set one flag and nothing else |
| ModeMeanings.SecretMeans | src/state/mod.rs:639-641 | after +s NAMES shows the channel to members only, after -s to everybody |
| ModeMeanings.ModeratedSets | src/channel.rs:258-261 | +m and -m set one flag and nothing else |
| ModeMeanings.NoOutsidersSets | src/channel.rs:262-265 | +n and -n set one flag and nothing else |
| ModeMeanings.TopicRestrictedSets | src/channel.rs:270-273 | +t and -t set one flag and nothing else |
| ModeMeanings.TalkMeans | src/channel.rs:189-195 | after +m only members with voice or rank can talk, after +n only members, after +t only operators can set the topic |
| ModeMeanings.KeySets | src/channel.rs:274-281 | +k sets the key, cut, unless there is one |
| ModeMeanings.KeyRemoved | src/channel.rs:282-285 | -k alone takes the key away |
| ModeMeanings.NamedKeyRemoved | src/channel.rs:282-285 | -k with a parameter takes the key away, whatever the parameter |
| ModeMeanings.KeyMeans | src/state/v1.rs:158-165 | after +k only that key gets in |
| ModeMeanings.NoKeyMeans | src/state/v1.rs:158-165 | after -k only a JOIN without a key gets in |
| ModeMeanings.KeyStays | src/channel.rs:275-277 | +k on a channel with a key changes nothing and is answered 467 |
| ModeMeanings.DigitsReadBack | src/channel.rs:288 | a decimal number below 2^64 is parsed as itself, a larger one is not |
| ModeMeanings.LimitSets | src/channel.rs:287-294 | +l n sets the limit and nothing else |
| ModeMeanings.LimitRemoved | src/channel.rs:295-298 | -l takes the limit away and nothing else |
| ModeMeanings.LimitMeans | src/state/v1.rs:166-176 | after +l n nobody gets in once there are n members |
| ModeMeanings.NoLimitMeans | src/state/v1.rs:166-176 | after -l the number of members does not matter |
| ModeMeanings.BanSets | src/channel.rs:299-305 | +b and -b edit the ban list and nothing else |
| ModeMeanings.BanMeans | src/channel.rs:178-183 | after +b a client that the mask matches is kept out unless an exception or invitation mask matches it; -b undoes it if the mask is listed once |
| ModeMeanings.ExceptionSets | src/channel.rs:306-312 | +e and -e edit the exception list and nothing else |
| ModeMeanings.ExceptionMeans | src/channel.rs:178-183 | after +e no ban keeps out a client that the mask matches |
| ModeMeanings.InvitationSets | src/channel.rs:313-319 | +I and -I edit the invitation list and nothing else |
| ModeMeanings.InvitationMeans | src/channel.rs:178-187 | after +I a client that the mask matches needs no invitation and is not banned |
| ModeMeanings.OperatorSets | src/channel.rs:320-333 | +o and -o change the operator flag of the member that spells its nickname so, and nothing else |
| ModeMeanings.HalfopSets | src/channel.rs:334-347 | the same for the halfop flag |
| ModeMeanings.VoiceSets | src/channel.rs:348-361 | the same for the voice flag |
| ModeMeanings.SpellingDecides | src/channel.rs:323 | a rank for a nickname that no member spells so is answered 441 and changes nothing |
| ModeMeanings.NotApplied | src/state/v1.rs:531-580 | a single change that is not applied leaves every channel alone and its issuer the answer to it |
| ModeMeanings.ListsAreShown | src/state/v1.rs:502-530 | b and e without a parameter list the bans and exceptions, I the exceptions too; nothing changes |
| ModeMeanings.ItemsInTurn | src/state/v1.rs:494-575 | a request of several letters is one after the other, as far as the channel goes |
| ModeMeanings.ModeIsTold | src/state/v1.rs:582-596 | the notice goes once to every other member, after the answers to the issuer, and to nobody else |
| SharedState.CheckEntry | src/state/v1.rs:147-194 | the tests for joining, in order, with the channel's mask lists |
| SharedState.StateInner.constructor | src/state/mod.rs:170-194 | the server starts empty |
| SharedState.StateInner.Invariant | src/state/mod.rs:219-451 | between any two calls the invariant holds of the fields |
| SharedState.StateInner.MembersKnowEachOther | src/state/v1.rs:196-221 | between any two calls a member of a channel knows from its own queue who is on it |
| SharedState.StateInner.ChannelMates | src/state/mod.rs:529-534 | collects exactly the clients sharing a channel with the issuer, each once |
| SharedState.StateInner.SendNotification | src/state/mod.rs:521-548 | one copy for each noticed client that passes the filter, whatever the order; vanished identifiers are skipped |
| SharedState.StateInner.Insert | src/state/mod.rs:219-223 | a connection gets an identifier that is not in use |
| SharedState.StateInner.RetainOthers | src/state/mod.rs:259-262 | takes the client out of every channel and keeps exactly the channels that still have members |
| SharedState.StateInner.Remove | src/state/mod.rs:243-268 | the whole state after a removal |
| SharedState.StateInner.Lookup | src/state/mod.rs:500-517 | finds the registered client with the nickname; the index never leads outside the slab |
| SharedState.StateInner.CmdNick | src/state/v1.rs:698-741 | the whole state and replies after NICK |
| SharedState.StateInner.CmdUser | src/state/v1.rs:1017-1033 | the whole state and replies after USER; a client without the password is removed |
| SharedState.StateInner.CmdPass | src/state/v1.rs:876-882 | the whole state after PASS |
| SharedState.StateInner.CmdCapReq | src/state/v3.rs:37-46 | the whole state and the acknowledgement after CAP REQ |
| SharedState.StateInner.CmdOper | src/state/v1.rs:745-771 | the whole state and replies after OPER |
| SharedState.StateInner.CmdAway | src/state/v1.rs:33-61 | the whole state and replies after AWAY |
| SharedState.StateInner.CmdSetName | src/state/v3.rs:66-93 | the whole state and replies after SETNAME |
| SharedState.StateInner.NamesReply | src/state/mod.rs:633-671 | the list of names has exactly the members' nicknames; looking up a member never fails |
| SharedState.StateInner.SendJoin | src/state/v1.rs:196-237 | every other member is told once, and of an away message those that asked for it |
| SharedState.StateInner.JoinChannel | src/state/v1.rs:243-272 | one channel of a JOIN: refused, already in, or entered and announced; the topic replies at line 268 aside |
| SharedState.StateInner.CmdJoin | src/state/v1.rs:239-279 | the whole state, and the replies but those about topics, after JOIN, each channel seeing the effects of those before it |
| SharedState.StateInner.CmdPart | src/state/v1.rs:775-835 | the whole state and replies after PART |
| SharedState.StateInner.CmdPartAll | src/state/v1.rs:837-872 | JOIN 0 leaves every channel, visiting each once in some order, with the state and replies of that order |
| SharedState.StateInner.CmdKick | src/state/v1.rs:319-373 | the whole state and replies after KICK |
| SharedState.StateInner.CmdKill | src/state/v1.rs:377-388 | the whole state and replies after KILL |
| SharedState.StateInner.CmdInvite | src/state/v1.rs:78-143 | the whole state and replies after INVITE |
| SharedState.StateInner.CmdMode | src/state/v1.rs:460-597 | the whole state and replies after MODE, lists of masks and numerics for single changes included |
| SharedState.StateInner.CmdModeUser | src/state/v1.rs:599-641 | the whole state and replies after MODE on a user |
| SharedState.StateInner.CmdNames | src/state/v1.rs:682-694 | the replies to NAMES |
| SharedState.StateInner.Conclude | src/state/mod.rs:423-451 | the state advances after success, the first registration is welcomed, the replies are sent |
| SharedState.StateInner.Process | src/state/mod.rs:270-451 | a request is checked, gated, served and concluded, without a failing lookup or `unwrap` |
| SharedState.StateInner.PeerJoined | src/state/mod.rs:219-223 | a step of the run: a connection arrives under a free identifier |
| SharedState.StateInner.HandleMessage | src/state/mod.rs:270-451 | a step of the run: a request; a QUIT, KILL, NICK, AWAY or SETNAME puts one copy on the queue of exactly those it concerns |
| SharedState.StateInner.HandleMalformed | src/state/mod.rs:290-344 | a step of the run: a line that is no request is answered and changes nothing else |
| SharedState.StateInner.PeerQuit | src/state/mod.rs:225-233 | a step of the run: the client is removed, and each client that shared a channel with it is told once |
| SharedState.StateInner.RemoveIfUnregistered | src/state/mod.rs:453-459 | a step of the run: a client is removed on timeout exactly when it has not registered |

## Left out

- Events instead of texts: what a client is told in the server model is an event with nicknames, channel
  and parameters, not the line; the lines are the subject of `Messages`, `RoundTrip`, `Builders` and `Wire`. Reply wording,
  numerics beyond their number, welcome and MOTD texts, reasons of KICK, PART and QUIT, and the
  extended form of JOIN are not part of this model; several numerics in a row that name no member are one event.
- A message whose tags are too long has no effect (src/state/mod.rs:285-288) and is no input of a run.
- JOIN 0 in a run may visit any sequence of channels; `SharedState.StateInner.CmdPartAll` visits each once.
- Channel names in events are their lower-cased forms; the spelling a client used is not kept.
- TOPIC (and the topic replies of JOIN), PRIVMSG, NOTICE, TAGMSG between clients, and the read-only LIST, WHO, WHOIS, LUSERS, MOTD, ADMIN,
  INFO, TIME, VERSION and queries of modes: they change no channel's members, no nickname and no rank. The item a
  message to others becomes is modelled (`Builders.MessageBuild`), and so are the tests of who may talk and set the
  topic (`ModeMeanings.TalkMeans`).
- AUTHENTICATE and messages to everybody are `todo!()` in the source; here AUTHENTICATE has no effect.
- Clients and channels are values inside the maps of `StateInner`, as the slab and the hash map own
  them in the source: aliasing does not arise. The queue of a client is a field of it, so messages to a client
  that is being removed are not kept.
- The slab's choice of a free identifier: the model allows any.
- Liveness of invitations: an invited client that disconnects stays invited, as the source declares.
- The configuration of the shared state is fixed during a run; rehash is modelled for the bindings only.
- Lengths count characters where the source counts bytes, and cutting a text inside a character, the UTF-8
  check of the reader, and the matcher on subjects beyond one byte per character are not covered.
- Tasks, sockets, TLS, timers, clocks, random identifiers, logging, the configuration file and the database
  are not part of this model; time is a non-decreasing input of `RateLimit`. The suspension of a read that is not ready is left out.
- Nested named batches of `ReplyBuffer`: no handler opens one.
- Numbers of members, identifiers, offsets and lengths are unbounded, except in `RateLimit` and in the limit
  of a channel, which is parsed as a 64-bit number.
- The other case mappings of ellidri-unicase: the server uses only the ASCII one.
- RoundTrip.PrintParseIff: asks that tags, prefix and command hold no space or NUL and do not end in white
  space, and that the command does not look like a prefix or a tag section; what happens to other heads is not stated.
- Tags.TagsRoundTrip: is about keys without semicolon or equals sign, which is what the callers pass.
- RateLimit.Limiter.Turn: the points a request returns are at most 999999, as every return of `handle_message` is.
