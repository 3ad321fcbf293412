/**
 * The chat client as a state machine over values: the fields of `Client`
 * (Client.java:28-34), the parts of its window the program writes (the message
 * area, the title, whether the text field is editable) and the lines it has sent
 * to the server. `Typed` is one press of Return in the text field
 * (Client.java:55-152); `Received` is one line read from the server
 * (Client.java:169-188). The class in module Client performs the same steps in
 * place and is proved to match them.
 */
module ClientSpec {
  import opened Wrappers
  import opened JavaString
  import opened Protocol
  import opened Relations

  /** The three values `letter_case` takes. */
  datatype LetterCase = Capital | Small | Both

  datatype ClientState = ClientState(
    letterCase: LetterCase,
    privateMode: bool,           // private_mode
    group: set<string>,          // private_mode_clients
    currentName: Option<string>, // current_client_name; None stands for null
    port: int,                   // port_number
    display: string,             // the text of the message area
    title: string,               // the frame's title
    editable: bool,              // whether the text field takes input
    sent: seq<string>,           // every line written to the server, in order
    running: bool)               // the read loop of `run` is still going

  /** A new client: the field initialisers and the constructor (Client.java:24-47). */
  function Initial(port: int): ClientState
  {
    ClientState(Both, false, {}, Some(""), port, "", "Chatter", false, [], true)
  }

  const BlockSelfError := "ERROR: You cannot block yourself!!!\n"
  const UnblockSelfError := "ERROR: You cannot unblock yourself!!!\n"

  /**
   * The command word of a `CMD:` line (Client.java:59-63): from just after the
   * first `:` up to the first space, or up to the end when the line has no space.
   */
  function CommandWord(line: string): (r: string)
    requires StartsWith(line, "CMD:")
    ensures ' ' !in r
    ensures 4 + |r| <= |line| && line[..4 + |r|] == "CMD:" + r
    ensures 4 + |r| == |line| || line[4 + |r|] == ' '
  {
    assert line[..4] == "CMD:";
    assert line[0] == line[..4][0] && line[1] == line[..4][1] && line[2] == line[..4][2] && line[3] == line[..4][3];
    var colon := IndexOf(line, ':', 0);
    assert colon == 3;
    var space := IndexOf(line, ' ', 0);
    var end := if space == -1 then |line| else space;
    assert line[..end] == "CMD:" + line[colon + 1..end];
    line[colon + 1..end]
  }

  /** The names listed after the command word that are not the client's own. */
  function Others(ws: seq<string>, self: Option<string>): set<string>
  {
    set w | w in ws && Some(w) != self
  }

  /** How often the client's own name is listed. */
  function SelfCount(ws: seq<string>, self: Option<string>): nat
  {
    if self.Some? then multiset(ws)[self.value] else 0
  }

  /** `n` copies of a line of text, one after the other. */
  function RepeatText(s: string, n: nat): (r: string)
    ensures |r| == n * |s|
  {
    if n == 0 then "" else RepeatText(s, n - 1) + s
  }

  /** Copy `k` of `n` repetitions sits at `k * |s|` and is `s` itself. */
  lemma {:induction false} RepeatTextCopy(s: string, n: nat, k: nat)
    requires k < n
    ensures (k + 1) * |s| <= |RepeatText(s, n)|
    ensures RepeatText(s, n)[k * |s| .. (k + 1) * |s|] == s
    decreases n
  {
    var front := RepeatText(s, n - 1);
    if k < n - 1 {
      RepeatTextCopy(s, n - 1, k);
      assert RepeatText(s, n) == front + s;
    } else {
      assert k * |s| == |front|;
    }
  }

  /** The `letter_case` a case command names. */
  function CaseNamed(cmd: string): LetterCase
  {
    if cmd == "CAPITAL" then Capital else if cmd == "SMALL" then Small else Both
  }

  /** An inbound payload as the message area shows it (Client.java:180-187). */
  function Shown(lc: LetterCase, s: string): (r: string)
    ensures |r| == |s|
    ensures lc == Capital ==> forall i :: 0 <= i < |r| ==> !('a' <= r[i] <= 'z')
    ensures lc == Small ==> forall i :: 0 <= i < |r| ==> !('A' <= r[i] <= 'Z')
    ensures lc == Both ==> r == s
    ensures forall i :: 0 <= i < |r| ==> LowerChar(r[i]) == LowerChar(s[i])
  {
    match lc
    case Capital => Upper(s)
    case Small => Lower(s)
    case Both => s
  }

  function OnOff(b: bool): string
  {
    if b then "ON" else "OFF"
  }

  /** `private_mode_clients` as PM PRINT lists it: the set joined in `order`. */
  function GroupListing(group: set<string>, order: seq<string>): string
  {
    if group == {} then "" else "The clients in your private group are : " + Join(", ", order) + "\n"
  }

  /** A line that starts `CMD:PM` and has fewer than two words after `CMD:`: `arguments[1]` throws. */
  predicate Throws(line: string)
  {
    StartsWith(line, "CMD:") && CommandWord(line) == "PM" && |Split(line[4..])| < 2
  }

  /**
   * The set that a typed line hands to `String.join` and so is listed in an order
   * the program does not choose: the filtered names of BLOCK and UNBLOCK, the group
   * of PM PRINT, and nothing otherwise.
   */
  function JoinedSet(cs: ClientState, line: string): set<string>
  {
    if !StartsWith(line, "CMD:") then {}
    else
      var cmd := CommandWord(line);
      var args := Split(line[4..]);
      if cmd == "BLOCK" || cmd == "UNBLOCK" then Others(WordsFrom(line[4..], 1), cs.currentName)
      else if cmd == "PM" && |args| >= 2 && args[1] == "PRINT" then cs.group
      else {}
  }

  /** `order` lists every element of `s` once. */
  predicate Enumerates(order: seq<string>, s: set<string>)
  {
    multiset(order) == multiset(s)
  }

  /** `CMD:PM <sub> <names…>` once `arguments[1]` exists (Client.java:110-145). */
  function GroupCommand(cs: ClientState, sub: string, ws: seq<string>, order: seq<string>): ClientState
  {
    if sub == "ENTER" then cs.(privateMode := true)
    else if sub == "LEAVE" then cs.(privateMode := false)
    else if sub == "PRINT" then
      cs.(display := cs.display + "Private mode is currently : " + OnOff(cs.privateMode) + "\n"
                     + GroupListing(cs.group, order))
    else if sub == "ADD" then
      cs.(group := cs.group + Elements(ws),
          sent := cs.sent + (if ws == [] then [] else ["PM ADD " + Join(" ", ws)]))
    else if sub == "REMOVE" then
      cs.(group := cs.group - Elements(ws),
          sent := cs.sent + (if ws == [] then [] else ["PM REMOVE " + Join(" ", ws)]))
    else cs
  }

  /**
   * One press of Return with `line` in the text field (Client.java:55-152), where
   * `order` is the order in which the joined set (see JoinedSet) is visited.
   * A `CMD:PM` line without a sub-command throws and changes nothing.
   */
  function Typed(cs: ClientState, line: string, order: seq<string>): ClientState
  {
    if !StartsWith(line, "CMD:") then cs.(sent := cs.sent + [Frame(cs.privateMode, line)])
    else
      var cmd := CommandWord(line);
      var ws := WordsFrom(line[4..], 1);
      if cmd == "CLR" then cs.(display := "")
      else if cmd == "CAPITAL" || cmd == "SMALL" || cmd == "BOTH" then
        cs.(letterCase := CaseNamed(cmd), sent := cs.sent + [Frame(cs.privateMode, line)])
      else if cmd == "ID" then cs.(display := cs.display + "Server Port ID: " + IntText(cs.port) + "\n")
      else if cmd == "BLOCK" then
        cs.(display := cs.display + RepeatText(BlockSelfError, SelfCount(ws, cs.currentName)),
            sent := cs.sent + (if Others(ws, cs.currentName) == {} then [] else ["BLOCK " + Join(" ", order)]))
      else if cmd == "UNBLOCK" then
        cs.(display := cs.display + RepeatText(UnblockSelfError, SelfCount(ws, cs.currentName)),
            sent := cs.sent + ["UNBLOCK " + Join(" ", order)])
      else if cmd == "PM" then
        var args := Split(line[4..]);
        if |args| < 2 then cs else GroupCommand(cs, args[1], args[2..], order)
      else cs
  }

  /** `out.println(name)` for the dialog's answer; a cancelled dialog gives null. */
  function NameText(chosen: Option<string>): string
  {
    match chosen
    case None => "null"
    case Some(n) => n
  }

  /**
   * One line read from the server (Client.java:170-188); `chosen` is what the name
   * dialog returns, asked only on SUBMITNAME. A NAMEACCEPTED or MESSAGE line too
   * short for its `substring` throws, which ends the read loop.
   */
  function Received(cs: ClientState, line: string, chosen: Option<string>): ClientState
    requires cs.running
  {
    if StartsWith(line, "SUBMITNAME") then cs.(currentName := chosen, sent := cs.sent + [NameText(chosen)])
    else if StartsWith(line, "NAMEACCEPTED") then
      if |line| < 13 then cs.(running := false)
      else cs.(title := "Chatter - " + line[13..], editable := true)
    else if StartsWith(line, "MESSAGE") then
      if |line| < 8 then cs.(running := false)
      else cs.(display := cs.display + Shown(cs.letterCase, line[8..]) + "\n")
    else cs
  }

  /** Typed on a BLOCK or UNBLOCK line, with the other cases set aside. */
  lemma TypedBlockCase(cs: ClientState, line: string, order: seq<string>)
    requires StartsWith(line, "CMD:") && (CommandWord(line) == "BLOCK" || CommandWord(line) == "UNBLOCK")
    ensures var ws := WordsFrom(line[4..], 1);
      Typed(cs, line, order) ==
        if CommandWord(line) == "BLOCK" then
          cs.(display := cs.display + RepeatText(BlockSelfError, SelfCount(ws, cs.currentName)),
              sent := cs.sent + (if Others(ws, cs.currentName) == {} then [] else ["BLOCK " + Join(" ", order)]))
        else
          cs.(display := cs.display + RepeatText(UnblockSelfError, SelfCount(ws, cs.currentName)),
              sent := cs.sent + ["UNBLOCK " + Join(" ", order)])
  {
  }

  // ---------------------------------------------------------------- properties

  /** The order of a joined set holds exactly the set's elements. */
  lemma EnumeratesElements(order: seq<string>, s: set<string>)
    requires Enumerates(order, s)
    ensures Elements(order) == s
  {
    forall x ensures x in order <==> x in s {
      assert x in order <==> x in multiset(order);
      assert x in s <==> x in multiset(s);
    }
  }

  /** A line that is not a command is framed and sent, and no client state changes. */
  lemma PlainLineOnlySends(cs: ClientState, line: string, order: seq<string>)
    requires !StartsWith(line, "CMD:")
    ensures Typed(cs, line, order).(sent := cs.sent) == cs
    ensures Typed(cs, line, order).sent == cs.sent + [Frame(cs.privateMode, line)]
  {
  }

  /** CLR and ID write to the message area only: nothing is sent to the server. */
  lemma LocalCommandsSendNothing(cs: ClientState, line: string, order: seq<string>)
    requires StartsWith(line, "CMD:") && (CommandWord(line) == "CLR" || CommandWord(line) == "ID")
    ensures Typed(cs, line, order).(display := cs.display) == cs
    ensures CommandWord(line) == "CLR" ==> Typed(cs, line, order).display == ""
    ensures CommandWord(line) == "ID" ==>
      Typed(cs, line, order).display == cs.display + "Server Port ID: " + IntText(cs.port) + "\n"
  {
  }

  /**
   * BLOCK sends one line iff some listed name is not the client's own, and then it
   * lists exactly those names; every listed own name adds one error line instead.
   */
  lemma BlockSendsOthers(cs: ClientState, line: string, order: seq<string>)
    requires StartsWith(line, "CMD:") && CommandWord(line) == "BLOCK"
    requires Enumerates(order, JoinedSet(cs, line))
    ensures var r := Typed(cs, line, order);
      var ws := WordsFrom(line[4..], 1);
      && r.(display := cs.display, sent := cs.sent) == cs
      && r.display == cs.display + RepeatText(BlockSelfError, SelfCount(ws, cs.currentName))
      && (|r.sent| == |cs.sent| + 1 <==> exists w :: w in ws && Some(w) != cs.currentName)
      && (|r.sent| == |cs.sent| || |r.sent| == |cs.sent| + 1)
      && r.sent[..|cs.sent|] == cs.sent
      && (|r.sent| == |cs.sent| + 1 ==>
            && r.sent[|cs.sent|] == "BLOCK " + Join(" ", order)
            && Elements(order) == Others(ws, cs.currentName)
            && (cs.currentName.Some? ==> cs.currentName.value !in Elements(order)))
  {
    EnumeratesElements(order, JoinedSet(cs, line));
    var ws := WordsFrom(line[4..], 1);
    if exists w :: w in ws && Some(w) != cs.currentName {
      var w :| w in ws && Some(w) != cs.currentName;
      assert w in Others(ws, cs.currentName);
    }
  }

  /** UNBLOCK always sends exactly one line, listing the names that are not the client's own. */
  lemma UnblockAlwaysSends(cs: ClientState, line: string, order: seq<string>)
    requires StartsWith(line, "CMD:") && CommandWord(line) == "UNBLOCK"
    requires Enumerates(order, JoinedSet(cs, line))
    ensures var r := Typed(cs, line, order);
      var ws := WordsFrom(line[4..], 1);
      && r.(display := cs.display, sent := cs.sent) == cs
      && r.display == cs.display + RepeatText(UnblockSelfError, SelfCount(ws, cs.currentName))
      && r.sent == cs.sent + ["UNBLOCK " + Join(" ", order)]
      && Elements(order) == Others(ws, cs.currentName)
      && (cs.currentName.Some? ==> cs.currentName.value !in Elements(order))
  {
    EnumeratesElements(order, JoinedSet(cs, line));
  }

  /** PM ENTER and PM LEAVE set the private flag, which every later framed line carries. */
  lemma PrivateModeSwitch(cs: ClientState, line: string, order: seq<string>, next: string, order2: seq<string>)
    requires StartsWith(line, "CMD:") && CommandWord(line) == "PM"
    requires |Split(line[4..])| >= 2 && Split(line[4..])[1] in {"ENTER", "LEAVE"}
    requires !StartsWith(next, "CMD:")
    ensures var r := Typed(cs, line, order);
      && r == cs.(privateMode := Split(line[4..])[1] == "ENTER")
      && Typed(r, next, order2).sent == cs.sent + [Frame(Split(line[4..])[1] == "ENTER", next)]
  {
  }

  /**
   * PM ADD and PM REMOVE change the local group by every name from the third word
   * on, and forward those names in the order typed when there is at least one.
   */
  lemma GroupEdit(cs: ClientState, line: string, order: seq<string>)
    requires StartsWith(line, "CMD:") && CommandWord(line) == "PM"
    requires |Split(line[4..])| >= 2 && Split(line[4..])[1] in {"ADD", "REMOVE"}
    ensures var r := Typed(cs, line, order);
      var sub := Split(line[4..])[1];
      var ws := Split(line[4..])[2..];
      && r.(group := cs.group, sent := cs.sent) == cs
      && r.group == (if sub == "ADD" then cs.group + Elements(ws) else cs.group - Elements(ws))
      && r.sent == cs.sent + (if ws == [] then [] else ["PM " + sub + " " + Join(" ", ws)])
  {
    assert "PM " + "ADD" + " " == "PM ADD ";
    assert "PM " + "REMOVE" + " " == "PM REMOVE ";
  }

  /**
   * PM PRINT sends nothing. It appends the mode line and, when the group is not
   * empty, one line that lists every member exactly once, in the order the set is visited.
   */
  lemma PrintShowsGroup(cs: ClientState, line: string, order: seq<string>)
    requires StartsWith(line, "CMD:") && CommandWord(line) == "PM"
    requires |Split(line[4..])| >= 2 && Split(line[4..])[1] == "PRINT"
    requires Enumerates(order, JoinedSet(cs, line))
    ensures var r := Typed(cs, line, order);
      && r.(display := cs.display) == cs
      && r.display == cs.display + "Private mode is currently : " + OnOff(cs.privateMode) + "\n"
           + (if cs.group == {} then "" else "The clients in your private group are : " + Join(", ", order) + "\n")
      && Elements(order) == cs.group
      && |order| == |cs.group|
  {
    TypedPrint(cs, line, order);
    GroupCommandPrint(cs, Split(line[4..])[2..], order);
    EnumeratesElements(order, cs.group);
    assert |multiset(order)| == |multiset(cs.group)|;
  }

  lemma TypedPrint(cs: ClientState, line: string, order: seq<string>)
    requires StartsWith(line, "CMD:") && CommandWord(line) == "PM"
    requires |Split(line[4..])| >= 2 && Split(line[4..])[1] == "PRINT"
    ensures JoinedSet(cs, line) == cs.group
    ensures Typed(cs, line, order) == GroupCommand(cs, "PRINT", Split(line[4..])[2..], order)
  {
  }

  lemma GroupCommandPrint(cs: ClientState, ws: seq<string>, order: seq<string>)
    ensures GroupCommand(cs, "PRINT", ws, order)
      == cs.(display := cs.display + "Private mode is currently : " + OnOff(cs.privateMode) + "\n"
                        + GroupListing(cs.group, order))
  {
  }

  /** A command word the switch does not know, or an unknown PM sub-command, changes nothing and sends nothing. */
  lemma UnknownCommandIgnored(cs: ClientState, line: string, order: seq<string>)
    requires StartsWith(line, "CMD:")
    requires var cmd := CommandWord(line);
      || cmd !in {"CLR", "CAPITAL", "SMALL", "BOTH", "ID", "BLOCK", "UNBLOCK", "PM"}
      || (cmd == "PM" && |Split(line[4..])| >= 2 && Split(line[4..])[1] !in {"ENTER", "LEAVE", "PRINT", "ADD", "REMOVE"})
    ensures Typed(cs, line, order) == cs
  {
  }

  /** A case command sets `letter_case` and is also sent on, framed like a message. */
  lemma CaseCommandForwarded(cs: ClientState, line: string, order: seq<string>)
    requires StartsWith(line, "CMD:")
    requires CommandWord(line) in {"CAPITAL", "SMALL", "BOTH"}
    ensures var r := Typed(cs, line, order);
      && r.(letterCase := cs.letterCase, sent := cs.sent) == cs
      && r.letterCase == CaseNamed(CommandWord(line))
      && r.sent == cs.sent + [Frame(cs.privateMode, line)]
  {
  }

  /** A `CMD:PM` line without a sub-command changes nothing. */
  lemma ThrowingLineChangesNothing(cs: ClientState, line: string, order: seq<string>)
    requires Throws(line)
    ensures Typed(cs, line, order) == cs
  {
  }

  /** SUBMITNAME records the chosen name and sends it, "null" for a cancelled dialog. */
  lemma SubmitNameAnswers(cs: ClientState, line: string, chosen: Option<string>)
    requires cs.running && StartsWith(line, "SUBMITNAME")
    ensures var r := Received(cs, line, chosen);
      && r.(currentName := cs.currentName, sent := cs.sent) == cs
      && r.currentName == chosen
      && r.sent == cs.sent + [NameText(chosen)]
  {
  }

  /** NAMEACCEPTED makes the text field editable and puts the name in the title. */
  lemma NameAcceptedTitle(cs: ClientState, n: string, chosen: Option<string>)
    requires cs.running
    ensures var r := Received(cs, "NAMEACCEPTED " + n, chosen);
      && r.(title := cs.title, editable := cs.editable) == cs
      && r.title == "Chatter - " + n && r.editable
  {
    var line := "NAMEACCEPTED " + n;
    assert line[..10] != "SUBMITNAME" by { assert line[0] != "SUBMITNAME"[0]; }
    assert line[..12] == "NAMEACCEPTED";
    assert line[13..] == n;
  }

  /** A MESSAGE line shows its payload in the current letter case, on a line of its own. */
  lemma MessageShown(cs: ClientState, payload: string, chosen: Option<string>)
    requires cs.running
    ensures var r := Received(cs, "MESSAGE " + payload, chosen);
      && r.(display := cs.display) == cs
      && r.display == cs.display + Shown(cs.letterCase, payload) + "\n"
  {
    var line := "MESSAGE " + payload;
    assert !StartsWith(line, "SUBMITNAME") by {
      if |line| >= 10 { assert line[..10][0] != "SUBMITNAME"[0]; }
    }
    assert |line| >= 12 ==> line[..12] != "NAMEACCEPTED" by {
      if |line| >= 12 { assert line[0] != "NAMEACCEPTED"[0]; }
    }
    assert line[..7] == "MESSAGE";
    assert line[8..] == payload;
  }

  /** A bare NAMEACCEPTED or MESSAGE line ends the read loop. */
  lemma ShortLineEndsLoop(cs: ClientState, chosen: Option<string>)
    requires cs.running
    ensures Received(cs, "NAMEACCEPTED", chosen) == cs.(running := false)
    ensures Received(cs, "MESSAGE", chosen) == cs.(running := false)
  {
    assert !StartsWith("NAMEACCEPTED", "SUBMITNAME") by { assert "NAMEACCEPTED"[0] != "SUBMITNAME"[0]; }
    assert !StartsWith("MESSAGE", "SUBMITNAME") by { assert "MESSAGE"[0] != "SUBMITNAME"[0]; }
    assert !StartsWith("MESSAGE", "NAMEACCEPTED");
    assert StartsWith("MESSAGE", "MESSAGE");
    assert StartsWith("NAMEACCEPTED", "NAMEACCEPTED");
  }
}
