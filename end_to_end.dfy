/**
 * The two halves of the protocol together: every line the client sends is read
 * by the server as the command or message the user typed, and every line the
 * server writes is shown by the client as its payload.
 */
module EndToEnd {
  import opened Wrappers
  import opened JavaString
  import opened Protocol
  import opened Relations
  import opened ServerSpec
  import opened ClientSpec

  // ---------------------------------------------------------------- splitting a command line the client built

  /** Joining two non-empty lists puts the separator between their joins. */
  lemma {:induction false} JoinAppend(sep: string, a: seq<string>, b: seq<string>)
    requires a != [] && b != []
    ensures Join(sep, a + b) == Join(sep, a) + sep + Join(sep, b)
    decreases |a|
  {
    if |a| == 1 {
      JoinCons(sep, a[0], b);
    } else {
      assert (a + b)[1..] == a[1..] + b;
      JoinAppend(sep, a[1..], b);
    }
  }

  /** Leading non-empty pieces are never dropped as trailing empties. */
  lemma {:induction false} DropTrailingEmptyPrefix(head: seq<string>, ws: seq<string>)
    requires forall k :: 0 <= k < |head| ==> head[k] != ""
    ensures DropTrailingEmpty(head + ws) == head + DropTrailingEmpty(ws)
    decreases |head|
  {
    if head != [] {
      var t := head[1..] + ws;
      assert head + ws == [head[0]] + t;
      DropTrailingEmptyCons(head[0], t);
      DropTrailingEmptyPrefix(head[1..], ws);
      assert [head[0]] + (head[1..] + DropTrailingEmpty(ws)) == head + DropTrailingEmpty(ws);
    } else {
      assert head + ws == ws;
      assert head + DropTrailingEmpty(ws) == DropTrailingEmpty(ws);
    }
  }

  /** What dropping trailing empties keeps: only pieces that were there, and every non-empty one. */
  lemma DropTrailingEmptyElements(ws: seq<string>)
    ensures Elements(DropTrailingEmpty(ws)) <= Elements(ws)
    ensures Elements(ws) - {""} <= Elements(DropTrailingEmpty(ws))
  {
    var r := DropTrailingEmpty(ws);
    forall x | x in r ensures x in ws {
      var k :| 0 <= k < |r| && r[k] == x;
      assert ws[k] == x;
    }
    forall x | x in ws && x != "" ensures x in r {
      var k :| 0 <= k < |ws| && ws[k] == x;
      assert k < |r|;
      assert r[k] == x;
    }
  }

  /** A command word list followed by its names: past the command words, the server's split gives the names less trailing empties. */
  lemma SplitCommandLine(head: seq<string>, ws: seq<string>, wire: string)
    requires head != [] && ws != []
    requires forall k :: 0 <= k < |head| ==> head[k] != "" && ' ' !in head[k]
    requires forall k :: 0 <= k < |ws| ==> ' ' !in ws[k]
    requires wire == Join(" ", head) + " " + Join(" ", ws)
    ensures WordsFrom(wire, |head|) == DropTrailingEmpty(ws)
  {
    JoinAppend(" ", head, ws);
    var all := head + ws;
    assert forall k :: 0 <= k < |all| ==> ' ' !in all[k] by {
      forall k | 0 <= k < |all| ensures ' ' !in all[k] {
        if k < |head| { assert all[k] == head[k]; } else { assert all[k] == ws[k - |head|]; }
      }
    }
    SplitJoin(all);
    DropTrailingEmptyPrefix(head, ws);
    assert (head + DropTrailingEmpty(ws))[|head|..] == DropTrailingEmpty(ws);
  }

  /** The same for a single command word, given the line as the word, a space and the joined names. */
  lemma SplitVerbLine(verb: string, ws: seq<string>, wire: string)
    requires verb != "" && ' ' !in verb
    requires ws != [] && forall k :: 0 <= k < |ws| ==> ' ' !in ws[k]
    requires |wire| > |verb| && wire[..|verb|] == verb && wire[|verb|] == ' ' && wire[|verb| + 1..] == Join(" ", ws)
    ensures WordsFrom(wire, 1) == DropTrailingEmpty(ws)
  {
    assert wire == verb + " " + Join(" ", ws);
    assert Join(" ", [verb]) == verb;
    SplitCommandLine([verb], ws, wire);
  }

  /** The command words the client sends are non-empty and hold no space. */
  lemma CommandWordsAreWords()
    ensures "BLOCK" != "" && ' ' !in "BLOCK"
    ensures "UNBLOCK" != "" && ' ' !in "UNBLOCK"
    ensures "PM" != "" && ' ' !in "PM"
    ensures "ADD" != "" && ' ' !in "ADD"
    ensures "REMOVE" != "" && ' ' !in "REMOVE"
  {
  }

  /** The words of `line.substring(4).split(" ")` never hold a space. */
  lemma ListedWordsHaveNoSpace(line: string, w: string)
    requires |line| >= 4 && w in WordsFrom(line[4..], 1)
    ensures ' ' !in w
  {
    var args := Split(line[4..]);
    var k :| 0 <= k < |args[1..]| && args[1..][k] == w;
    assert args[k + 1] == w;
  }

  // ---------------------------------------------------------------- client to server

  /** A typed line that is not a command reaches the server as a message with the client's flag and the line as typed. */
  lemma PlainLineReachesServer(cs: ClientState, line: string, order: seq<string>)
    requires !StartsWith(line, "CMD:")
    ensures var r := Typed(cs, line, order);
      |r.sent| == |cs.sent| + 1 && Classify(r.sent[|cs.sent|]) == Chat(cs.privateMode, line)
  {
    FrameRoundTrip(cs.privateMode, line);
  }

  /** A case command is also sent on, and the server relays it to the others as an ordinary message. */
  lemma CaseCommandReachesServerAsMessage(cs: ClientState, line: string, order: seq<string>)
    requires StartsWith(line, "CMD:") && CommandWord(line) in {"CAPITAL", "SMALL", "BOTH"}
    ensures var r := Typed(cs, line, order);
      |r.sent| == |cs.sent| + 1 && Classify(r.sent[|cs.sent|]) == Chat(cs.privateMode, line)
  {
    FrameRoundTrip(cs.privateMode, line);
  }

  /** Past `BLOCK`, the server's split of a BLOCK line gives its names less trailing empties. */
  lemma BlockWords(names: seq<string>)
    requires names != [] && forall k :: 0 <= k < |names| ==> ' ' !in names[k]
    ensures WordsFrom("BLOCK " + Join(" ", names), 1) == DropTrailingEmpty(names)
  {
    var wire := "BLOCK " + Join(" ", names);
    assert wire[..5] == "BLOCK" && wire[6..] == Join(" ", names);
    CommandWordsAreWords();
    SplitVerbLine("BLOCK", names, wire);
  }

  lemma BlockPrefix(rest: string)
    ensures StartsWith("BLOCK " + rest, "BLOCK")
  {
    assert ("BLOCK " + rest)[..5] == "BLOCK";
  }

  /** The server reads `BLOCK <names>` as a BLOCK of the names, less trailing empty words. */
  lemma BlockWire(names: seq<string>)
    requires names != [] && forall k :: 0 <= k < |names| ==> ' ' !in names[k]
    ensures Classify("BLOCK " + Join(" ", names)) == Block(DropTrailingEmpty(names))
  {
    BlockWords(names);
    BlockPrefix(Join(" ", names));
    BlockLineIsBlock("BLOCK " + Join(" ", names));
  }

  /**
   * The BLOCK line a client sends is read by the server as a BLOCK of the names
   * the client kept: nothing it did not keep, every kept name except the empty
   * word, and never the client's own name.
   */
  lemma BlockReachesServer(cs: ClientState, line: string, order: seq<string>)
    requires StartsWith(line, "CMD:") && CommandWord(line) == "BLOCK"
    requires Enumerates(order, JoinedSet(cs, line))
    requires |Typed(cs, line, order).sent| > |cs.sent|
    ensures var wire := Typed(cs, line, order).sent[|cs.sent|];
      var kept := Others(WordsFrom(line[4..], 1), cs.currentName);
      && Classify(wire).Block?
      && Elements(Classify(wire).targets) <= kept
      && kept - {""} <= Elements(Classify(wire).targets)
      && (cs.currentName.Some? ==> cs.currentName.value !in Elements(Classify(wire).targets))
  {
    BlockSendsOthers(cs, line, order);
    assert order != [] by { assert Elements(order) != {}; }
    forall k | 0 <= k < |order| ensures ' ' !in order[k] {
      assert order[k] in Elements(order);
      ListedWordsHaveNoSpace(line, order[k]);
    }
    BlockWire(order);
    DropTrailingEmptyElements(order);
  }

  /** Past `UNBLOCK`, the server's split of an UNBLOCK line gives its names less trailing empties. */
  lemma UnblockWords(names: seq<string>)
    requires names != [] && forall k :: 0 <= k < |names| ==> ' ' !in names[k]
    ensures WordsFrom("UNBLOCK " + Join(" ", names), 1) == DropTrailingEmpty(names)
  {
    var wire := "UNBLOCK " + Join(" ", names);
    assert wire[..7] == "UNBLOCK" && wire[8..] == Join(" ", names);
    CommandWordsAreWords();
    SplitVerbLine("UNBLOCK", names, wire);
  }

  /** `UNBLOCK ` alone names nobody: the trailing empty word is dropped. */
  lemma UnblockBare()
    ensures WordsFrom("UNBLOCK " + Join(" ", []), 1) == []
  {
    var wire := "UNBLOCK " + Join(" ", []);
    assert Join(" ", [""]) == "";
    assert wire[..7] == "UNBLOCK" && wire[8..] == Join(" ", [""]);
    CommandWordsAreWords();
    SplitVerbLine("UNBLOCK", [""], wire);
  }

  lemma UnblockPrefix(rest: string)
    ensures StartsWith("UNBLOCK " + rest, "UNBLOCK")
  {
    assert ("UNBLOCK " + rest)[..7] == "UNBLOCK";
  }

  /** The server reads `UNBLOCK <names>` as an UNBLOCK of the names, less trailing empty words; with no names, of none. */
  lemma UnblockWire(names: seq<string>)
    requires forall k :: 0 <= k < |names| ==> ' ' !in names[k]
    ensures Classify("UNBLOCK " + Join(" ", names)) == Unblock(DropTrailingEmpty(names))
  {
    if names == [] {
      UnblockBare();
    } else {
      UnblockWords(names);
    }
    UnblockPrefix(Join(" ", names));
    UnblockLineIsUnblock("UNBLOCK " + Join(" ", names));
  }

  /**
   * The UNBLOCK line is read by the server as an UNBLOCK of the names the client
   * kept (every one but the empty word), even when it kept none.
   */
  lemma UnblockReachesServer(cs: ClientState, line: string, order: seq<string>)
    requires StartsWith(line, "CMD:") && CommandWord(line) == "UNBLOCK"
    requires Enumerates(order, JoinedSet(cs, line))
    ensures var r := Typed(cs, line, order);
      var kept := Others(WordsFrom(line[4..], 1), cs.currentName);
      && |r.sent| == |cs.sent| + 1
      && Classify(r.sent[|cs.sent|]).Unblock?
      && Elements(Classify(r.sent[|cs.sent|]).targets) <= kept
      && kept - {""} <= Elements(Classify(r.sent[|cs.sent|]).targets)
  {
    UnblockAlwaysSends(cs, line, order);
    forall k | 0 <= k < |order| ensures ' ' !in order[k] {
      assert order[k] in Elements(order);
      ListedWordsHaveNoSpace(line, order[k]);
    }
    UnblockWire(order);
    DropTrailingEmptyElements(order);
  }

  /** Past `PM ADD` or `PM REMOVE`, the server's split gives the names, whose last is not empty. */
  lemma GroupWords(sub: string, names: seq<string>)
    requires sub in {"ADD", "REMOVE"}
    requires names != [] && names[|names| - 1] != "" && forall k :: 0 <= k < |names| ==> ' ' !in names[k]
    ensures WordsFrom("PM " + sub + " " + Join(" ", names), 2) == names
  {
    var wire := "PM " + sub + " " + Join(" ", names);
    PmJoin(sub);
    CommandWordsAreWords();
    assert wire == Join(" ", ["PM", sub]) + " " + Join(" ", names);
    SplitCommandLine(["PM", sub], names, wire);
  }

  lemma PmJoin(sub: string)
    ensures Join(" ", ["PM", sub]) == "PM " + sub
  {
    JoinCons(" ", "PM", [sub]);
  }

  lemma GroupPrefix(sub: string, rest: string)
    requires sub in {"ADD", "REMOVE"}
    ensures sub == "ADD" ==> StartsWith("PM " + sub + " " + rest, "PM ADD")
    ensures sub == "REMOVE" ==> StartsWith("PM " + sub + " " + rest, "PM REMOVE")
  {
    var wire := "PM " + sub + " " + rest;
    if sub == "ADD" {
      assert wire[..6] == "PM ADD";
    } else {
      assert wire[..9] == "PM REMOVE";
    }
  }

  /** The server reads `PM ADD <names>` and `PM REMOVE <names>` as that group command over the names. */
  lemma GroupWire(sub: string, names: seq<string>)
    requires sub in {"ADD", "REMOVE"}
    requires names != [] && names[|names| - 1] != "" && forall k :: 0 <= k < |names| ==> ' ' !in names[k]
    ensures Classify("PM " + sub + " " + Join(" ", names))
         == if sub == "ADD" then GroupAdd(names) else GroupRemove(names)
  {
    var wire := "PM " + sub + " " + Join(" ", names);
    GroupWords(sub, names);
    GroupPrefix(sub, Join(" ", names));
    if sub == "ADD" {
      GroupAddLineIsGroupAdd(wire);
    } else {
      GroupRemoveLineIsGroupRemove(wire);
    }
  }

  /** PM ADD and PM REMOVE reach the server as the same group command over exactly the names typed. */
  lemma GroupEditReachesServer(cs: ClientState, line: string, order: seq<string>)
    requires StartsWith(line, "CMD:") && CommandWord(line) == "PM"
    requires |Split(line[4..])| > 2 && Split(line[4..])[1] in {"ADD", "REMOVE"}
    ensures var r := Typed(cs, line, order);
      var args := Split(line[4..]);
      && |r.sent| == |cs.sent| + 1
      && Classify(r.sent[|cs.sent|]) == if args[1] == "ADD" then GroupAdd(args[2..]) else GroupRemove(args[2..])
  {
    var args := Split(line[4..]);
    var ws := args[2..];
    GroupEdit(cs, line, order);
    assert ' ' in line[4..];
    assert ws[|ws| - 1] == args[|args| - 1];
    forall k | 0 <= k < |ws| ensures ' ' !in ws[k] { assert ws[k] == args[k + 2]; }
    GroupWire(args[1], ws);
  }

  // ---------------------------------------------------------------- server to client

  /** A chat line from the server is shown as `<sender>: <text>` in the client's letter case. */
  lemma ChatLineShown(cs: ClientState, sender: string, text: string, chosen: Option<string>)
    requires cs.running
    ensures Received(cs, ChatLine(sender, text), chosen).display
         == cs.display + Shown(cs.letterCase, sender + ": " + text) + "\n"
  {
    assert ChatLine(sender, text) == "MESSAGE " + (sender + ": " + text);
    MessageShown(cs, sender + ": " + text, chosen);
  }

  /** The NAMEACCEPTED line of the join puts the accepted name in the client's title. */
  lemma JoinSetsTitle(st: State, id: SessionId, cs: ClientState, chosen: Option<string>)
    requires Inv(st) && id in st.handlers && st.handlers[id].phase.Accepted?
    requires cs.running
    ensures |JoinStep(st, id).log[id]| == |st.log[id]| + 1
    ensures var line := JoinStep(st, id).log[id][|st.log[id]|];
      && Received(cs, line, chosen).title == "Chatter - " + st.handlers[id].name.value
      && Received(cs, line, chosen).editable
  {
    NameAcceptedTitle(cs, st.handlers[id].name.value, chosen);
  }

  /**
   * A broadcast end to end: a line typed on a client in broadcast mode, sent by
   * chatting session `id`, reaches every writer the block filter lets through once,
   * and a client there shows it as `<sender>: <line>` in its own letter case.
   */
  lemma BroadcastEndToEnd(st: State, id: SessionId, sender: ClientState, line: string, order: seq<string>,
                          w: SessionId, receiver: ClientState, chosen: Option<string>)
    requires Inv(st) && id in st.handlers && st.handlers[id].phase.Chatting?
    requires !StartsWith(line, "CMD:") && !sender.privateMode
    requires w in st.writers && !Filtered(st, st.handlers[id].name.value, w)
    requires receiver.running
    ensures var wire := Typed(sender, line, order).sent[|sender.sent|];
      var n := st.handlers[id].name.value;
      && LineStep(st, id, wire).log[w] == st.log[w] + [ChatLine(n, line)]
      && Received(receiver, ChatLine(n, line), chosen).display
           == receiver.display + Shown(receiver.letterCase, n + ": " + line) + "\n"
  {
    var n := st.handlers[id].name.value;
    PlainLineReachesServer(sender, line, order);
    assert HandlerOk(st, id) && NameKnown(st, id);
    BroadcastCopies(st, n, w);
    ChatLineShown(receiver, n, line, chosen);
  }
}
