/**
 * The `Client` object (Client.java:19-196) with its fields updated in place:
 * the action listener of the text field (`Enter`) and the body of the read
 * loop in `run` (`Receive`). Each method is proved to perform the step of
 * module ClientSpec on the fields it changes.
 */
module Client {
  import opened Wrappers
  import opened JavaString
  import opened Protocol
  import opened Relations
  import opened Iteration
  import opened ClientSpec

  class ChatClient {
    var letterCase: LetterCase
    var privateMode: bool
    var group: set<string>
    var currentName: Option<string>
    const port: int
    var display: string
    var title: string
    var editable: bool
    var sent: seq<string>
    var running: bool

    ghost function Snap(): ClientState
      reads this
    {
      ClientState(letterCase, privateMode, group, currentName, port, display, title, editable, sent, running)
    }

    constructor (port: int)
      ensures Snap() == Initial(port)
    {
      letterCase := Both;
      privateMode := false;
      group := {};
      currentName := Some("");
      this.port := port;
      display := "";
      title := "Chatter";
      editable := false;
      sent := [];
      running := true;
    }

    /**
     * The loop of Client.java:85-91 and 98-104 over `arguments` from index 1: the
     * client's own name appends `error` to the message area, every other name goes
     * into the returned set.
     */
    method CollectOthers(arguments: seq<string>, error: string) returns (others: set<string>)
      requires |arguments| >= 1
      modifies this`display
      ensures others == Others(arguments[1..], currentName)
      ensures display == old(display) + RepeatText(error, SelfCount(arguments[1..], currentName))
    {
      others := {};
      var i := 1;
      while i < |arguments|
        invariant 1 <= i <= |arguments|
        invariant others == Others(arguments[1..i], currentName)
        invariant display == old(display) + RepeatText(error, SelfCount(arguments[1..i], currentName))
      {
        assert arguments[1..i + 1] == arguments[1..i] + [arguments[i]];
        if currentName == Some(arguments[i]) {
          display := display + error;
        } else {
          others := others + {arguments[i]};
        }
        i := i + 1;
      }
      assert arguments[1..i] == arguments[1..];
    }

    /** The PM ADD loop (Client.java:125-130): every name from index 2 joins the group and the forwarded list. */
    method AddToGroup(arguments: seq<string>) returns (added: seq<string>)
      requires |arguments| >= 2
      modifies this`group
      ensures group == old(group) + Elements(arguments[2..])
      ensures added == arguments[2..]
    {
      added := [];
      var i := 2;
      while i < |arguments|
        invariant 2 <= i <= |arguments|
        invariant group == old(group) + Elements(arguments[2..i])
        invariant added == arguments[2..i]
      {
        ElementsSnoc(arguments[2..i], arguments[i]);
        assert arguments[2..i + 1] == arguments[2..i] + [arguments[i]];
        group := group + {arguments[i]};
        added := added + [arguments[i]];
        i := i + 1;
      }
      assert arguments[2..i] == arguments[2..];
    }

    /** The PM REMOVE loop (Client.java:136-141): every name from index 2 leaves the group and is forwarded. */
    method RemoveFromGroup(arguments: seq<string>) returns (removed: seq<string>)
      requires |arguments| >= 2
      modifies this`group
      ensures group == old(group) - Elements(arguments[2..])
      ensures removed == arguments[2..]
    {
      removed := [];
      var i := 2;
      while i < |arguments|
        invariant 2 <= i <= |arguments|
        invariant group == old(group) - Elements(arguments[2..i])
        invariant removed == arguments[2..i]
      {
        ElementsSnoc(arguments[2..i], arguments[i]);
        assert arguments[2..i + 1] == arguments[2..i] + [arguments[i]];
        group := group - {arguments[i]};
        removed := removed + [arguments[i]];
        i := i + 1;
      }
      assert arguments[2..i] == arguments[2..];
    }

    /**
     * `actionPerformed` (Client.java:54-154) with `line` in the text field. `cleared`
     * says whether the handler got as far as clearing the field; `order` is the order
     * in which it visited the set it joined, if any.
     */
    method Enter(line: string) returns (cleared: bool, ghost order: seq<string>)
      modifies this
      ensures cleared == !Throws(line)
      ensures Enumerates(order, JoinedSet(old(Snap()), line))
      ensures Snap() == Typed(old(Snap()), line, order)
    {
      cleared := true;
      order := [];
      if !StartsWith(line, "CMD:") {
        sent := sent + [Frame(privateMode, line)];
        return;
      }
      var cmd := CommandWord(line);
      if cmd == "CLR" {
        display := "";
      } else if cmd == "CAPITAL" || cmd == "SMALL" || cmd == "BOTH" {
        letterCase := CaseNamed(cmd);
        sent := sent + [Frame(privateMode, line)];
      } else if cmd == "ID" {
        display := display + "Server Port ID: " + IntText(port) + "\n";
      } else if cmd == "BLOCK" || cmd == "UNBLOCK" {
        order := BlockCommand(line, cmd);
      } else if cmd == "PM" {
        cleared, order := GroupCommandLine(line);
      }
    }

    /** The BLOCK and UNBLOCK cases (Client.java:81-107). */
    method BlockCommand(line: string, cmd: string) returns (ghost order: seq<string>)
      requires StartsWith(line, "CMD:") && cmd == CommandWord(line) && (cmd == "BLOCK" || cmd == "UNBLOCK")
      modifies this`display, this`sent
      ensures Enumerates(order, JoinedSet(old(Snap()), line))
      ensures Snap() == Typed(old(Snap()), line, order)
    {
      ghost var cs := Snap();
      var arguments := Split(line[4..]);
      assert line[4..][0] == line[..4 + |cmd|][4];
      SplitNonEmpty(line[4..]);
      ghost var ws := WordsFrom(line[4..], 1);
      assert arguments[1..] == ws;
      if cmd == "BLOCK" {
        var blocked := CollectOthers(arguments, BlockSelfError);
        order := [];
        if blocked != {} {
          var xs := Enumerate(blocked);
          order := xs;
          sent := sent + ["BLOCK " + Join(" ", xs)];
        }
        TypedBlockCase(cs, line, order);
        assert Snap() == cs.(display := cs.display + RepeatText(BlockSelfError, SelfCount(ws, cs.currentName)),
                             sent := cs.sent + (if Others(ws, cs.currentName) == {} then [] else ["BLOCK " + Join(" ", order)]));
      } else {
        var unblocked := CollectOthers(arguments, UnblockSelfError);
        var xs := Enumerate(unblocked);
        order := xs;
        sent := sent + ["UNBLOCK " + Join(" ", xs)];
        TypedBlockCase(cs, line, order);
        assert Snap() == cs.(display := cs.display + RepeatText(UnblockSelfError, SelfCount(ws, cs.currentName)),
                             sent := cs.sent + ["UNBLOCK " + Join(" ", order)]);
      }
    }

    /** The PM case (Client.java:108-145); without a sub-command `arguments[1]` throws. */
    method GroupCommandLine(line: string) returns (cleared: bool, ghost order: seq<string>)
      requires StartsWith(line, "CMD:") && CommandWord(line) == "PM"
      modifies this`privateMode, this`display, this`group, this`sent
      ensures cleared == !Throws(line)
      ensures Enumerates(order, JoinedSet(old(Snap()), line))
      ensures Snap() == Typed(old(Snap()), line, order)
    {
      var arguments := Split(line[4..]);
      if |arguments| < 2 {
        cleared, order := false, [];
        return;
      }
      cleared := true;
      order := PrivateSubCommand(arguments);
    }

    /** The switch on `arguments[1]` (Client.java:111-145). */
    method PrivateSubCommand(arguments: seq<string>) returns (ghost order: seq<string>)
      requires |arguments| >= 2
      modifies this`privateMode, this`display, this`group, this`sent
      ensures Enumerates(order, if arguments[1] == "PRINT" then old(group) else {})
      ensures Snap() == GroupCommand(old(Snap()), arguments[1], arguments[2..], order)
    {
      order := [];
      var sub := arguments[1];
      if sub == "ENTER" {
        privateMode := true;
      } else if sub == "LEAVE" {
        privateMode := false;
      } else if sub == "PRINT" {
        display := display + "Private mode is currently : " + OnOff(privateMode) + "\n";
        if group != {} {
          var xs := Enumerate(group);
          order := xs;
          display := display + "The clients in your private group are : " + Join(", ", xs) + "\n";
        }
      } else if sub == "ADD" {
        var added := AddToGroup(arguments);
        if added != [] {
          sent := sent + ["PM ADD " + Join(" ", added)];
        }
      } else if sub == "REMOVE" {
        var removed := RemoveFromGroup(arguments);
        if removed != [] {
          sent := sent + ["PM REMOVE " + Join(" ", removed)];
        }
      }
    }

    /** One pass of the read loop in `run` (Client.java:170-188); `chosen` is the name dialog's answer. */
    method Receive(line: string, chosen: Option<string>)
      requires running
      modifies this
      ensures Snap() == Received(old(Snap()), line, chosen)
    {
      if StartsWith(line, "SUBMITNAME") {
        currentName := chosen;
        sent := sent + [NameText(chosen)];
      } else if StartsWith(line, "NAMEACCEPTED") {
        if |line| < 13 {
          // `substring(13)` throws and the loop ends
          running := false;
        } else {
          title := "Chatter - " + line[13..];
          editable := true;
        }
      } else if StartsWith(line, "MESSAGE") {
        if |line| < 8 {
          running := false;
        } else {
          display := display + Shown(letterCase, line[8..]) + "\n";
        }
      }
    }
  }
}
