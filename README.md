# Network chat: a Dafny model of the server handler and the client translator

The system is a line-based chat relay. A server (`Server.java`) runs one
`Handler` per connection. The handler asks for a screen name until it gets one
that is free, then announces the newcomer and serves its lines:

- `/quit` ends the session;
- `BLOCK` and `UNBLOCK` edit the sender's block list;
- `PM REMOVE` and `PM ADD` edit the sender's private group;
- every other line is a chat frame `;<flag>;<text>`, relayed either to every
  writer or to the sender's group, with the block filter applied both ways.

On any exit the `finally` block unregisters the writer and the name and tells
the others that the user left.

A Swing client (`Client.java`) turns what the user types into those lines
(`CMD:` commands, or a frame carrying the private-mode flag). It also shows
what the server sends: SUBMITNAME, NAMEACCEPTED and MESSAGE.

The Dafny project has these modules:

- **Wrappers**, **JavaString**, **Relations**, **Iteration**: the Java library
  behaviour the code depends on.
  - `startsWith`, `isBlank`, `indexOf`, `split(" ")` including the drop of
    trailing empty strings, `String.join`, `Boolean.parseBoolean` and ASCII case
    mapping.
  - The two name-to-set tables.
  - The visit of a `HashSet` in an order the program does not choose.
- **Protocol**: the server's dispatch of one inbound line, in the order the
  source tests the prefixes, and the client's chat frame.
- **ServerSpec**: the server as a state machine over values.
  - The state holds the static tables, one record per handler (its `name` field
    and where `run` stands) and one output log per connection.
  - Each step function is one atomic step of `Handler.run`.
  - An invariant `Inv` ties the tables together, and every step keeps it.
  - The routing of a chat line is specified per writer, as the number of copies
    it receives.
- **Server**: class `ChatServer`, whose fields are those tables.
  - Its methods update the fields in place, with loops where the source has them.
  - Each method is proved to perform the matching ServerSpec step.
- **ClientSpec**: the client's fields and visible window state as a value.
  - `Typed` is one press of Return and `Received` is one line read from the
    server.
  - There are lemmas for every command word and every PM sub-command, and for
    words the switch does not know.
- **Client**: class `ChatClient`, whose methods are proved to perform `Typed`
  and `Received` on its fields.
- **EndToEnd**: the two halves together.
  - Every line the client sends is read by the server as the command or message
    the user typed.
  - Every line the server writes is shown by the client as its payload.
- **Findings**: the stale-name cleanup described under "Findings" below.

The model follows the code, including these behaviours:

- **Self-block**: the server does not check that a user blocks their own name;
  only the client filters it out.
- **Missing `;`**: a frame without a second `;` makes `substring` throw, which
  ends the session like `/quit`.
- **Stale table entries**: `name_writer_map` and `writer_name_map` are never
  pruned, so a group member who has left is still addressed on their old writer.
- **Letter case**: the quit test and `parseBoolean` ignore letter case; the
  command prefixes do not.
- **`CMD:PM` without a sub-command**: it throws in the action listener and
  changes nothing.
- **Handshake name**: the handshake stores every candidate in the handler's
  `name` field before testing it, and the `finally` block removes whatever that
  field holds. The `ChatServer` class keeps this behaviour as written. The
  corrected cleanup is defined and proved separately, in module Findings.

## Model

| member | source | states |
|---|---|---|
| `JavaString.Lower` | src/com/hidden_machine/network_chat/Server.java:93 | `toLowerCase` keeps the length and maps every character through the ASCII lower-case map |
| `JavaString.Upper` | src/com/hidden_machine/network_chat/Client.java:182 | `toUpperCase` keeps the length and maps every character through the ASCII upper-case map |
| `JavaString.IndexOf` | src/com/hidden_machine/network_chat/Server.java:160 | `indexOf(c, from)` is -1 exactly when `c` does not occur from `from` on; otherwise it is the first position at or after `from` holding `c` |
| `JavaString.SplitAll` | src/com/hidden_machine/network_chat/Server.java:98 | cutting at every space gives at least one piece, and no piece holds a space |
| `JavaString.DropTrailingEmpty` | src/com/hidden_machine/network_chat/Server.java:98 | the result is a prefix of the pieces that ends in a non-empty piece; only empty pieces are dropped after it |
| `JavaString.Split` | src/com/hidden_machine/network_chat/Client.java:82 | `split(" ")` gives pieces without spaces; when the string has a space, the last piece is not empty |
| `JavaString.SplitNonEmpty` | src/com/hidden_machine/network_chat/Client.java:109-110 | a string that does not start with a space splits into at least one piece |
| `JavaString.DecimalText` | src/com/hidden_machine/network_chat/Client.java:79 | the decimal text of a natural number is non-empty and made of digits |
| `JavaString.DecimalTextValue` | src/com/hidden_machine/network_chat/Client.java:79 | the decimal text denotes exactly the number it was made from, with no leading zero |
| `JavaString.IntText` | src/com/hidden_machine/network_chat/Client.java:79 | the text of an `int` is non-empty and starts with `-` exactly when the number is negative |
| `JavaString.IntTextValue` | src/com/hidden_machine/network_chat/Client.java:79 | the text of an `int`, such as the port that ID prints, denotes exactly that number |
| `JavaString.ParseBooleanIff` | src/com/hidden_machine/network_chat/Server.java:161 | `parseBoolean` holds exactly for four-letter strings that spell "true" in any mix of letter cases |
| `JavaString.ParseBooleanLiterals` | src/com/hidden_machine/network_chat/Server.java:161 | examples: "true", "TRUE" and "True" parse as true; "false" and the empty string do not |
| `JavaString.JoinCons` | src/com/hidden_machine/network_chat/Client.java:93 | `String.join` puts the separator right after the first piece |
| `JavaString.SplitAllJoin` | src/com/hidden_machine/network_chat/Client.java:93 | cutting at every space undoes joining with a space, for pieces without spaces |
| `JavaString.SplitJoin` | src/com/hidden_machine/network_chat/Client.java:93 | `split(" ")` undoes `String.join(" ", ws)` up to trailing empty pieces, when the first piece is non-empty and no piece holds a space |
| `JavaString.DropTrailingEmptyCons` | src/com/hidden_machine/network_chat/Server.java:98 | dropping trailing empty pieces never touches a non-empty first piece |
| `Relations.BlockedSymmetric` | src/com/hidden_machine/network_chat/Server.java:177-181 | the delivery filter is symmetric: it does not matter which side owns the block entry |
| `Relations.AddAllEffect` | src/com/hidden_machine/network_chat/Server.java:100-109 | BLOCK creates the owner's set when missing and adds exactly the listed names; other owners' sets are unchanged |
| `Relations.SelfBlockTakesEffect` | src/com/hidden_machine/network_chat/Server.java:96-109 | a name that lists itself in BLOCK is then blocked from itself |
| `Relations.AddAllIdempotent` | src/com/hidden_machine/network_chat/Server.java:100-109 | repeating a BLOCK command changes nothing |
| `Relations.RemoveAllEffect` | src/com/hidden_machine/network_chat/Server.java:114-124 | UNBLOCK and PM REMOVE without a set change nothing; otherwise exactly the listed names leave the owner's set, and other owners are untouched |
| `Relations.RemoveUndoesAdd` | src/com/hidden_machine/network_chat/Server.java:96-124 | UNBLOCK after BLOCK of the same names leaves the owner's set as before, less those names |
| `Relations.AddRegisteredEffect` | src/com/hidden_machine/network_chat/Server.java:146-157 | PM ADD creates the group when missing, and the group becomes the old group plus the listed names that are registered, nothing more; unregistered names stay out; other owners are untouched |
| `Iteration.Enumerate` | src/com/hidden_machine/network_chat/Server.java:83 | a for-each over a `HashSet` visits every element exactly once |
| `Protocol.ParseFrame` | src/com/hidden_machine/network_chat/Server.java:160-162 | no frame exactly when there is no `;` after position 0; otherwise the flag is `parseBoolean` of the text up to the first such `;` and the payload is everything after it |
| `Protocol.QuitLineStartsWithSlash` | src/com/hidden_machine/network_chat/Server.java:93 | a quit line has at least five characters and starts with `/` |
| `Protocol.QuitWins` | src/com/hidden_machine/network_chat/Server.java:93-95 | a line is read as quit if and only if its lower-cased form starts with `/quit` |
| `Protocol.MalformedIff` | src/com/hidden_machine/network_chat/Server.java:96-162 | a line ends the session as malformed if and only if it is no quit line, no command prefix matches, and it has no `;` after position 0 |
| `Protocol.NotQuit` | src/com/hidden_machine/network_chat/Server.java:93 | a line whose first character is not `/` is never the quit sentinel |
| `Protocol.BlockLineIsBlock` | src/com/hidden_machine/network_chat/Server.java:96-104 | a line starting with BLOCK is a BLOCK of its words from the second on |
| `Protocol.UnblockLineIsUnblock` | src/com/hidden_machine/network_chat/Server.java:111-118 | a line starting with UNBLOCK is an UNBLOCK of its words from the second on |
| `Protocol.GroupAddLineIsGroupAdd` | src/com/hidden_machine/network_chat/Server.java:142-150 | a line starting with PM ADD is a group addition of its words from the third on |
| `Protocol.GroupRemoveLineIsGroupRemove` | src/com/hidden_machine/network_chat/Server.java:126-134 | a line starting with PM REMOVE is a group removal of its words from the third on |
| `Protocol.SemicolonLineIsMessage` | src/com/hidden_machine/network_chat/Server.java:159-162 | a line starting with `;` is read as a chat frame, or as malformed when the frame does not parse |
| `Protocol.ParseFrameOfFrame` | src/com/hidden_machine/network_chat/Server.java:160-162 | the server's frame parser gives back the flag and text the client framed |
| `Protocol.FrameRoundTrip` | src/com/hidden_machine/network_chat/Client.java:150 | every frame the client sends is read by the server as a chat line with the same mode and text |
| `ServerSpec.NameWriterInjective` | src/com/hidden_machine/network_chat/Server.java:87-88 | `name_writer_map` never maps two names to one writer |
| `ServerSpec.HandshakeKeepsInv` | src/com/hidden_machine/network_chat/Server.java:65-77 | a handler in the name loop may change its name field and become accepted without breaking the invariant |
| `ServerSpec.AcceptStep` | src/com/hidden_machine/network_chat/Server.java:59-66 | a connection adds a fresh handler in the name loop, whose log holds one SUBMITNAME, and advances the session counter; nothing else changes |
| `ServerSpec.SubmitStep` | src/com/hidden_machine/network_chat/Server.java:65-77 | the candidate is stored in the name field whatever happens; it is accepted if and only if it is not blank and not registered, and then `names` grows by exactly it; otherwise only SUBMITNAME is sent again |
| `ServerSpec.JoinStep` | src/com/hidden_machine/network_chat/Server.java:82-88 | the joiner gets NAMEACCEPTED; every writer that was there before gets the join notice, and no other session does; the joiner enters `writers` and both maps |
| `ServerSpec.JoinStepIs` | src/com/hidden_machine/network_chat/Server.java:82-88 | the join is NAMEACCEPTED to the joiner, then the notice to the earlier writers, then the registrations, in that order |
| `ServerSpec.CleanupStep` | src/com/hidden_machine/network_chat/Server.java:191-201 | the writer leaves `writers`; a held name value leaves `names`, and every remaining writer is told that it left; the maps are not pruned |
| `ServerSpec.WritersOfInsert` | src/com/hidden_machine/network_chat/Server.java:165-168 | visiting one more group member adds its writer, which no member visited before has |
| `ServerSpec.DeliveriesCount` | src/com/hidden_machine/network_chat/Server.java:171-185 | the delivery loop gives every unfiltered writer one copy per occurrence in the target list, and nothing to anyone else |
| `ServerSpec.RouteLogByDeliveries` | src/com/hidden_machine/network_chat/Server.java:164-185 | any visiting order of the recipients yields the same logs |
| `ServerSpec.LineStep` | src/com/hidden_machine/network_chat/Server.java:91-187 | quit and malformed lines are the cleanup; every other line changes only the block table, the group table or the logs |
| `ServerSpec.AcceptKeepsInv` | src/com/hidden_machine/network_chat/Server.java:59-66 | a new connection keeps the invariant |
| `ServerSpec.SubmitKeepsInv` | src/com/hidden_machine/network_chat/Server.java:65-77 | a pass of the name loop keeps the invariant |
| `ServerSpec.JoinKeepsInv` | src/com/hidden_machine/network_chat/Server.java:82-88 | the join keeps the invariant |
| `ServerSpec.CleanupKeepsInv` | src/com/hidden_machine/network_chat/Server.java:191-201 | the `finally` block keeps the invariant |
| `ServerSpec.InvIgnoresTables` | src/com/hidden_machine/network_chat/Server.java:96-158 | the command branches cannot break the invariant: it does not depend on the two tables or on log contents |
| `ServerSpec.LineStepKeepsInv` | src/com/hidden_machine/network_chat/Server.java:91-187 | every line of a chatting session keeps the invariant |
| `ServerSpec.SecondClaimRefused` | src/com/hidden_machine/network_chat/Server.java:71-76 | once one handshake has taken a name, a second handshake for the same name is refused |
| `ServerSpec.JoinNoticeSkipsJoiner` | src/com/hidden_machine/network_chat/Server.java:82-86 | the joiner never gets its own join notice; every writer already present gets it exactly once |
| `ServerSpec.QuitCleansUp` | src/com/hidden_machine/network_chat/Server.java:92-95 | after a quit line the session is closed, its writer and name are gone, it gets nothing more, and every remaining writer hears once that it left |
| `ServerSpec.MalformedCleansUp` | src/com/hidden_machine/network_chat/Server.java:160-162 | a frame without a second `;` ends the session exactly as quit does |
| `ServerSpec.CommandsTouchOnlySender` | src/com/hidden_machine/network_chat/Server.java:96-158 | commands change only the sender's entry of the block or group table, and nothing else in the state |
| `ServerSpec.BlockLine` | src/com/hidden_machine/network_chat/Server.java:96-110 | BLOCK adds every listed word to the sender's set, the sender's own name included |
| `ServerSpec.GroupAddOnlyRegistered` | src/com/hidden_machine/network_chat/Server.java:142-158 | PM ADD adds to the sender's group exactly the listed words that are registered names, so no unregistered name and no unlisted name gets in |
| `ServerSpec.BroadcastCopies` | src/com/hidden_machine/network_chat/Server.java:171-185 | a broadcast reaches each current writer exactly once, unless the block filter removes it, and nobody else |
| `ServerSpec.PrivateCopies` | src/com/hidden_machine/network_chat/Server.java:164-185 | a private message reaches a writer once for each role it has: writer of a group member, and the sender's own writer; the block filter removes both |
| `ServerSpec.BlockedNeverDelivered` | src/com/hidden_machine/network_chat/Server.java:173-181 | two names with a block between them never receive each other's messages, in either direction and in either mode |
| `ServerSpec.PrivateEcho` | src/com/hidden_machine/network_chat/Server.java:169 | a private message echoes to the sender once, or twice when the sender is in their own group |
| `ServerSpec.DepartedMemberStillAddressed` | src/com/hidden_machine/network_chat/Server.java:165-168 | a group member who has left is still sent private messages on their old writer |
| `Server.ChatServer.constructor` | src/com/hidden_machine/network_chat/Server.java:13-23 | the tables start empty and the invariant holds |
| `Server.ChatServer.Accept` | src/com/hidden_machine/network_chat/Server.java:59-66 | performs AcceptStep in place and returns the new session id |
| `Server.ChatServer.SubmitName` | src/com/hidden_machine/network_chat/Server.java:65-77 | performs SubmitStep in place and reports acceptance exactly when the candidate is not blank and not registered |
| `Server.ChatServer.Join` | src/com/hidden_machine/network_chat/Server.java:82-88 | performs JoinStep in place: the loop over `writers`, then the registrations |
| `Server.ChatServer.Disconnect` | src/com/hidden_machine/network_chat/Server.java:189-201 | a failed read or the end of the stream runs the `finally` block, as CleanupStep |
| `Server.ChatServer.ProcessLine` | src/com/hidden_machine/network_chat/Server.java:91-187 | performs LineStep in place, keeping the invariant |
| `Server.ChatServer.ProcessCommand` | src/com/hidden_machine/network_chat/Server.java:96-158 | the four command branches perform LineStep in place |
| `Server.ChatServer.ProcessMessage` | src/com/hidden_machine/network_chat/Server.java:159-187 | the message branch performs LineStep in place; a missing `;` runs the cleanup |
| `Server.ChatServer.Cleanup` | src/com/hidden_machine/network_chat/Server.java:191-201 | performs CleanupStep in place, keeping the invariant |
| `Server.ChatServer.Announce` | src/com/hidden_machine/network_chat/Server.java:198-200 | the loop over the writers appends the line to exactly those logs |
| `Server.ChatServer.BlockNames` | src/com/hidden_machine/network_chat/Server.java:100-109 | the BLOCK loop leaves the block table as AddAll, whose effect is proved in AddAllEffect |
| `Server.ChatServer.UnblockNames` | src/com/hidden_machine/network_chat/Server.java:114-124 | the UNBLOCK loop leaves the block table as RemoveAll |
| `Server.ChatServer.RemoveMembers` | src/com/hidden_machine/network_chat/Server.java:130-140 | the PM REMOVE loop leaves the group table as RemoveAll, with no registration check |
| `Server.ChatServer.AddMembers` | src/com/hidden_machine/network_chat/Server.java:146-157 | the PM ADD loop leaves the group table as AddRegistered: only registered names get in |
| `Server.ChatServer.CollectPrivateWriters` | src/com/hidden_machine/network_chat/Server.java:164-169 | `private_chat_writers` holds, with multiplicity, the known group members' writers plus the sender's own writer |
| `Server.ChatServer.Deliver` | src/com/hidden_machine/network_chat/Server.java:171-185 | the delivery loop leaves the logs as Deliveries, whose copy counts DeliveriesCount proves |
| `Server.ChatServer.Route` | src/com/hidden_machine/network_chat/Server.java:164-185 | routing a chat line leaves every log with exactly its Copies of the line appended |
| `ClientSpec.CommandWord` | src/com/hidden_machine/network_chat/Client.java:59-63 | the command word has no space; `CMD:` followed by it is a prefix of the line, ended by a space or the end of the line |
| `ClientSpec.RepeatText` | src/com/hidden_machine/network_chat/Client.java:85-89 | n error lines are n times as long as one |
| `ClientSpec.RepeatTextCopy` | src/com/hidden_machine/network_chat/Client.java:85-89 | each of the n pieces of the repeated error text is the error line itself, so the text is n copies of it |
| `ClientSpec.Shown` | src/com/hidden_machine/network_chat/Client.java:180-187 | the shown payload has the payload's length and letters up to case; CAPITAL leaves no lower-case letter, SMALL no upper-case one, and BOTH shows it unchanged |
| `ClientSpec.EnumeratesElements` | src/com/hidden_machine/network_chat/Client.java:90-93 | an enumeration of a set lists exactly its elements |
| `ClientSpec.PlainLineOnlySends` | src/com/hidden_machine/network_chat/Client.java:149-151 | a line that is not a command is sent framed with the current flag, and nothing else changes |
| `ClientSpec.LocalCommandsSendNothing` | src/com/hidden_machine/network_chat/Client.java:65-80 | CLR empties the message area and ID appends the port line; neither sends anything |
| `ClientSpec.BlockSendsOthers` | src/com/hidden_machine/network_chat/Client.java:81-94 | BLOCK sends one line if and only if some listed name is not the client's own, and that line lists exactly those names; each listed own name appends one error line |
| `ClientSpec.UnblockAlwaysSends` | src/com/hidden_machine/network_chat/Client.java:95-107 | UNBLOCK always sends exactly one line, listing exactly the names that are not the client's own; each listed own name appends one error line |
| `ClientSpec.PrivateModeSwitch` | src/com/hidden_machine/network_chat/Client.java:112-117 | PM ENTER and PM LEAVE set only the private flag, which the next framed line carries |
| `ClientSpec.GroupEdit` | src/com/hidden_machine/network_chat/Client.java:124-144 | PM ADD and PM REMOVE change the local group by every name from the third word on, and forward them in the order typed when there is at least one |
| `ClientSpec.PrintShowsGroup` | src/com/hidden_machine/network_chat/Client.java:118-123 | PM PRINT sends nothing; it appends the mode line, ON or OFF, and, when the group is not empty, a line that lists every member exactly once |
| `ClientSpec.UnknownCommandIgnored` | src/com/hidden_machine/network_chat/Client.java:64-147 | a command word the switch does not know, or an unknown PM sub-command, changes nothing and sends nothing |
| `ClientSpec.CaseCommandForwarded` | src/com/hidden_machine/network_chat/Client.java:68-76 | a case command sets the letter case and is also sent on as an ordinary frame |
| `ClientSpec.ThrowingLineChangesNothing` | src/com/hidden_machine/network_chat/Client.java:109-110 | a `CMD:PM` line without a sub-command changes nothing |
| `ClientSpec.SubmitNameAnswers` | src/com/hidden_machine/network_chat/Client.java:171-174 | SUBMITNAME records the chosen name and sends it, or "null" for a cancelled dialog |
| `ClientSpec.NameAcceptedTitle` | src/com/hidden_machine/network_chat/Client.java:175-177 | NAMEACCEPTED puts the name in the title and makes the text field editable, and changes nothing else |
| `ClientSpec.MessageShown` | src/com/hidden_machine/network_chat/Client.java:178-187 | a MESSAGE line appends its payload, in the current letter case, as a line of its own, and changes nothing else |
| `ClientSpec.ShortLineEndsLoop` | src/com/hidden_machine/network_chat/Client.java:175-180 | a bare NAMEACCEPTED or MESSAGE line throws in `substring` and ends the read loop |
| `Client.ChatClient.constructor` | src/com/hidden_machine/network_chat/Client.java:28-47 | the field initialisers and the constructor give the initial client state |
| `Client.ChatClient.CollectOthers` | src/com/hidden_machine/network_chat/Client.java:85-91 | the argument loop collects exactly the listed names that are not the client's own, and appends one error line per own name |
| `Client.ChatClient.AddToGroup` | src/com/hidden_machine/network_chat/Client.java:125-130 | the PM ADD loop adds every name from the third word on to the group, and lists them in order |
| `Client.ChatClient.RemoveFromGroup` | src/com/hidden_machine/network_chat/Client.java:136-141 | the PM REMOVE loop removes every name from the third word on from the group, and lists them in order |
| `Client.ChatClient.Enter` | src/com/hidden_machine/network_chat/Client.java:54-154 | performs Typed in place; the text field is cleared exactly when the line does not throw |
| `Client.ChatClient.BlockCommand` | src/com/hidden_machine/network_chat/Client.java:81-107 | the BLOCK and UNBLOCK branches perform Typed in place |
| `Client.ChatClient.GroupCommandLine` | src/com/hidden_machine/network_chat/Client.java:108-145 | the PM branch performs Typed in place, and throws without a sub-command |
| `Client.ChatClient.PrivateSubCommand` | src/com/hidden_machine/network_chat/Client.java:111-145 | the switch on the sub-command performs GroupCommand in place |
| `Client.ChatClient.Receive` | src/com/hidden_machine/network_chat/Client.java:170-188 | one pass of the read loop performs Received in place |
| `EndToEnd.JoinAppend` | src/com/hidden_machine/network_chat/Client.java:93 | joining two non-empty lists puts the separator between their joins |
| `EndToEnd.DropTrailingEmptyPrefix` | src/com/hidden_machine/network_chat/Server.java:98 | leading non-empty words are never dropped as trailing empties |
| `EndToEnd.DropTrailingEmptyElements` | src/com/hidden_machine/network_chat/Server.java:98 | dropping trailing empties keeps only words that were there, and every non-empty one |
| `EndToEnd.SplitCommandLine` | src/com/hidden_machine/network_chat/Server.java:144-150 | past the command words, the server's split of a command line gives the names, less trailing empties |
| `EndToEnd.SplitVerbLine` | src/com/hidden_machine/network_chat/Server.java:98-104 | past a single command word, the server's split gives the names, less trailing empties |
| `EndToEnd.ListedWordsHaveNoSpace` | src/com/hidden_machine/network_chat/Client.java:82 | the words the client takes from a command line hold no space |
| `EndToEnd.PlainLineReachesServer` | src/com/hidden_machine/network_chat/Client.java:149-151 | a typed line that is not a command reaches the server as a chat line with the client's flag and the text as typed |
| `EndToEnd.CaseCommandReachesServerAsMessage` | src/com/hidden_machine/network_chat/Client.java:68-76 | a case command is sent on and relayed by the server as an ordinary chat line |
| `EndToEnd.BlockWords` | src/com/hidden_machine/network_chat/Server.java:98-107 | the server's words of `BLOCK <names>` are the names, less trailing empties |
| `EndToEnd.BlockWire` | src/com/hidden_machine/network_chat/Server.java:96-107 | the server reads `BLOCK <names>` as a BLOCK of the names, less trailing empties |
| `EndToEnd.BlockReachesServer` | src/com/hidden_machine/network_chat/Client.java:81-94 | the BLOCK line a client sends is read as a BLOCK of exactly the kept names, except the empty word, and never of the client's own name |
| `EndToEnd.UnblockWords` | src/com/hidden_machine/network_chat/Server.java:111-121 | the server's words of `UNBLOCK <names>` are the names, less trailing empties |
| `EndToEnd.UnblockBare` | src/com/hidden_machine/network_chat/Server.java:112-118 | a bare `UNBLOCK ` names nobody |
| `EndToEnd.UnblockWire` | src/com/hidden_machine/network_chat/Server.java:111-124 | the server reads `UNBLOCK <names>` as an UNBLOCK of the names, less trailing empties, and of none when there are no names |
| `EndToEnd.UnblockReachesServer` | src/com/hidden_machine/network_chat/Client.java:95-107 | the UNBLOCK line is always sent, and read as an UNBLOCK of exactly the kept names, except the empty word |
| `EndToEnd.GroupWords` | src/com/hidden_machine/network_chat/Server.java:144-151 | past `PM ADD` or `PM REMOVE`, the server's words are exactly the names sent |
| `EndToEnd.GroupWire` | src/com/hidden_machine/network_chat/Server.java:126-157 | the server reads `PM ADD <names>` and `PM REMOVE <names>` as that group command over exactly the names |
| `EndToEnd.GroupEditReachesServer` | src/com/hidden_machine/network_chat/Client.java:124-144 | PM ADD and PM REMOVE reach the server as the same group command over exactly the names typed |
| `EndToEnd.ChatLineShown` | src/com/hidden_machine/network_chat/Client.java:178-187 | a chat line from the server is shown as `<sender>: <text>` in the client's letter case |
| `EndToEnd.JoinSetsTitle` | src/com/hidden_machine/network_chat/Client.java:175-177 | the NAMEACCEPTED line of the join puts the accepted name in the client's title and enables typing |
| `EndToEnd.BroadcastEndToEnd` | src/com/hidden_machine/network_chat/Server.java:171-185 | a typed broadcast line reaches each writer the filter lets through exactly once, and shows there as `<sender>: <line>` in the receiver's letter case |
| `Findings.NamesLiveInitial` | src/com/hidden_machine/network_chat/Server.java:13 | the empty server satisfies the live-names invariant |
| `Findings.AcceptKeepsNamesLive` | src/com/hidden_machine/network_chat/Server.java:59-66 | a new connection keeps the live-names invariant |
| `Findings.SubmitKeepsNamesLive` | src/com/hidden_machine/network_chat/Server.java:65-77 | the name loop keeps `names` equal to the live names, none blank and none held twice |
| `Findings.JoinKeepsNamesLive` | src/com/hidden_machine/network_chat/Server.java:82-88 | the join keeps the live-names invariant |
| `Findings.CleanupChattingKeepsNamesLive` | src/com/hidden_machine/network_chat/Server.java:195-200 | the cleanup of a session that joined releases exactly its own name |
| `Findings.LineKeepsNamesLive` | src/com/hidden_machine/network_chat/Server.java:91-187 | every line of a chatting session keeps the live-names invariant |
| `Findings.StaleCleanupFreesLiveName` | src/com/hidden_machine/network_chat/Server.java:195-200 | as written: a connection refused a name and then dropped removes that name from its live owner, tells the owner that it left, and breaks the invariant |
| `Findings.StaleCleanupAdmitsDuplicate` | src/com/hidden_machine/network_chat/Server.java:71-75 | as written: afterwards a third connection is accepted under the name its owner still chats under |
| `Findings.FixedCleanupKeepsInv` | src/com/hidden_machine/network_chat/Server.java:191-201 | the corrected cleanup keeps the table invariant |
| `Findings.FixedCleanupKeepsNamesLive` | src/com/hidden_machine/network_chat/Server.java:195-201 | the corrected cleanup keeps the live-names invariant, from the name loop and from the chat loop |
| `Findings.FixedCleanupKeepsLiveName` | src/com/hidden_machine/network_chat/Server.java:67-75 | corrected: the same run leaves the owner's name registered and its log untouched, and refuses the third claim |

## Left out

- Sockets, streams, the thread pool and `main` (port parsing, the listener
  loop) are not modelled. A connection is a session id, and each session's
  output is a log of lines.
- `synchronized` and thread interleaving are not modelled. Each step of
  `Handler.run` is atomic. The source guards only the name test, so two
  interleaved handlers can act on the shared tables in ways the model does not
  represent.
- `System.out` diagnostics, `printStackTrace` and the Swing layout are left
  out. Of the window, only the message area, the title, the text field's
  editable flag and its clearing are modelled.
- The `name == null` branch of the name loop (Server.java:68-70) is not
  modelled because `Scanner.nextLine` never returns null. The end of input
  throws instead, and `Disconnect` models it.
- Case mapping covers ASCII letters only, for the quit test, `parseBoolean`
  and the client's CAPITAL and SMALL display. Unicode case rules are not
  modelled.
- `HashSet` iteration order is not chosen. Where it is observable, it is a
  parameter constrained to enumerate the set: the order of the joined names in
  BLOCK, UNBLOCK and PM PRINT, and the order of the private recipients.
- The server logs are per session, so the relative order of lines across
  different writers is not represented.
- Typing before NAMEACCEPTED, typing after the window is disposed, and the
  client's `socket.close` are not modelled. The client's socket is never
  closed explicitly. `Received` requires the read loop to be running.
- The client's `getName` dialog is a parameter (`chosen`); a cancelled dialog
  is `None`.
- The stale-name cleanup is kept as written in the server class. The corrected
  cleanup, FixedCleanupStep, is a separate function with its own proofs. The
  class keeps the `name != null` test of the `finally` block; the stale
  candidate that test lets through is the subject of the finding.

## Findings

| source | as written | input that shows it | evidently intended | confidence | as-written member | corrected member |
|---|---|---|---|---|---|---|
| src/com/hidden_machine/network_chat/Server.java:67-75, 195-200 | the candidate is stored in the `name` field before it is tested, and the `finally` block removes whatever the field holds and announces that it left | user A is chatting as "ann"; a second connection offers "ann" (refused) and then its stream ends; the server removes "ann" from `names`, every writer including A gets "MESSAGE ann has left", and a third connection can register "ann" while A still uses it | only a session whose name was accepted releases it and announces its departure | not executed | `Findings.StaleCleanupFreesLiveName`, `Findings.StaleCleanupAdmitsDuplicate` | `Findings.FixedCleanupKeepsNamesLive`, `Findings.FixedCleanupKeepsLiveName` |
