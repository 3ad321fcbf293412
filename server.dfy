/**
 * `Server` and its `Handler` (Server.java:10-209) as one object whose fields are the
 * static tables, the handlers' `name` fields and the per-session output logs.
 * Each public method is one atomic step of some `Handler.run`; it updates the
 * fields in place, with loops where the source has them, and is proved to
 * perform the corresponding step function of ServerSpec.
 */
module Server {
  import opened Wrappers
  import opened JavaString
  import opened Protocol
  import opened Relations
  import opened Iteration
  import opened ServerSpec

  class ChatServer {
    var names: set<string>
    var writers: set<SessionId>
    var nameWriter: map<string, SessionId>
    var writerName: map<SessionId, string>
    var blockList: Table
    var groups: Table
    var handlers: map<SessionId, Handler>
    var log: map<SessionId, seq<string>>
    var nextId: SessionId

    /** The fields, read as one value. */
    ghost function Snap(): State
      reads this
    {
      State(names, writers, nameWriter, writerName, blockList, groups, handlers, log, nextId)
    }

    ghost predicate Valid()
      reads this
    {
      Inv(Snap())
    }

    constructor ()
      ensures Valid() && Snap() == Initial()
    {
      names, writers := {}, {};
      nameWriter, writerName := map[], map[];
      blockList, groups := map[], map[];
      handlers, log := map[], map[];
      nextId := 0;
    }

    /** A connection is accepted and its handler sends the first SUBMITNAME. */
    method Accept() returns (id: SessionId)
      requires Valid()
      modifies this
      ensures Valid() && Snap() == AcceptStep(old(Snap()))
      ensures id == old(nextId) && id !in old(handlers)
    {
      ghost var st := Snap();
      id := nextId;
      handlers := handlers[id := Handler(None, AwaitingName)];
      log := log[id := ["SUBMITNAME"]];
      nextId := nextId + 1;
      AcceptKeepsInv(st);
    }

    /** The handler reads a candidate name (Server.java:67-76). */
    method SubmitName(id: SessionId, candidate: string) returns (accepted: bool)
      requires Valid() && id in handlers && handlers[id].phase.AwaitingName?
      modifies this
      ensures Valid() && Snap() == SubmitStep(old(Snap()), id, candidate)
      ensures accepted <==> !IsBlank(candidate) && candidate !in old(names)
    {
      ghost var st := Snap();
      handlers := handlers[id := Handler(Some(candidate), AwaitingName)];
      accepted := !IsBlank(candidate) && candidate !in names;
      if accepted {
        names := names + {candidate};
        handlers := handlers[id := Handler(Some(candidate), Accepted)];
        assert handlers == st.handlers[id := Handler(Some(candidate), Accepted)];
        assert Snap() == st.(names := st.names + {candidate}, handlers := st.handlers[id := Handler(Some(candidate), Accepted)]);
      } else {
        log := log[id := log[id] + ["SUBMITNAME"]];
        assert Snap() == st.(handlers := st.handlers[id := Handler(Some(candidate), AwaitingName)],
                             log := st.log[id := st.log[id] + ["SUBMITNAME"]]);
      }
      SubmitKeepsInv(st, id, candidate);
    }

    /** The handler joins the chat (Server.java:82-88). */
    method Join(id: SessionId)
      requires Valid() && id in handlers && handlers[id].phase.Accepted?
      modifies this
      ensures Valid() && Snap() == JoinStep(old(Snap()), id)
    {
      ghost var st := Snap();
      var n := handlers[id].name.value;
      log := log[id := log[id] + ["NAMEACCEPTED " + n]];
      Announce(writers, JoinedLine(n));
      writers := writers + {id};
      nameWriter := nameWriter[n := id];
      writerName := writerName[id := n];
      handlers := handlers[id := Handler(Some(n), Chatting)];
      assert log == Send(st.log[id := st.log[id] + ["NAMEACCEPTED " + n]], st.writers, JoinedLine(n));
      assert writers == st.writers + {id} && handlers == st.handlers[id := Handler(Some(n), Chatting)];
      assert nameWriter == st.nameWriter[n := id] && writerName == st.writerName[id := n];
      assert Snap() == State(st.names, st.writers + {id}, st.nameWriter[n := id], st.writerName[id := n],
                             st.blockList, st.groups, st.handlers[id := Handler(Some(n), Chatting)],
                             Send(st.log[id := st.log[id] + ["NAMEACCEPTED " + n]], st.writers, JoinedLine(n)),
                             st.nextId);
      JoinStepIs(st, id);
      JoinKeepsInv(st, id);
    }

    /** The handler's read fails or the stream ends; the `finally` block runs. */
    method Disconnect(id: SessionId)
      requires Valid() && id in handlers
      requires handlers[id].phase.AwaitingName? || handlers[id].phase.Chatting?
      modifies this
      ensures Valid() && Snap() == CleanupStep(old(Snap()), id)
    {
      Cleanup(id);
    }

    /** The handler reads one line from its registered client (Server.java:92-187). */
    method ProcessLine(id: SessionId, input: string)
      requires Valid() && id in handlers && handlers[id].phase.Chatting?
      modifies this
      ensures Valid() && Snap() == LineStep(old(Snap()), id, input)
    {
      if StartsWith(Lower(input), "/quit") {
        assert Classify(input) == Quit;
        Cleanup(id);
      } else if StartsWith(input, "BLOCK") || StartsWith(input, "UNBLOCK")
             || StartsWith(input, "PM REMOVE") || StartsWith(input, "PM ADD") {
        ProcessCommand(id, input);
      } else {
        ProcessMessage(id, input);
      }
    }

    /** The four command branches of the dispatch (Server.java:97-157). */
    method ProcessCommand(id: SessionId, input: string)
      requires Valid() && id in handlers && handlers[id].phase.Chatting?
      requires !IsQuit(input)
      requires StartsWith(input, "BLOCK") || StartsWith(input, "UNBLOCK")
            || StartsWith(input, "PM REMOVE") || StartsWith(input, "PM ADD")
      modifies this
      ensures Valid() && Snap() == LineStep(old(Snap()), id, input)
    {
      ghost var st := Snap();
      var n := handlers[id].name.value;
      if StartsWith(input, "BLOCK") {
        assert Classify(input) == Block(WordsFrom(input, 1));
        BlockNames(n, WordsFrom(input, 1));
        assert Snap() == st.(blockList := AddAll(st.blockList, n, WordsFrom(input, 1)));
      } else if StartsWith(input, "UNBLOCK") {
        assert Classify(input) == Unblock(WordsFrom(input, 1));
        UnblockNames(n, WordsFrom(input, 1));
        assert Snap() == st.(blockList := RemoveAll(st.blockList, n, WordsFrom(input, 1)));
      } else if StartsWith(input, "PM REMOVE") {
        assert Classify(input) == GroupRemove(WordsFrom(input, 2));
        RemoveMembers(n, WordsFrom(input, 2));
        assert Snap() == st.(groups := RemoveAll(st.groups, n, WordsFrom(input, 2)));
      } else {
        assert Classify(input) == GroupAdd(WordsFrom(input, 2));
        AddMembers(n, WordsFrom(input, 2));
        assert Snap() == st.(groups := AddRegistered(st.groups, n, WordsFrom(input, 2), st.names));
      }
      InvIgnoresTables(st, blockList, groups, log);
    }

    /** The message branch of the dispatch (Server.java:160-186). */
    method ProcessMessage(id: SessionId, input: string)
      requires Valid() && id in handlers && handlers[id].phase.Chatting?
      requires !IsQuit(input) && !StartsWith(input, "BLOCK") && !StartsWith(input, "UNBLOCK")
      requires !StartsWith(input, "PM REMOVE") && !StartsWith(input, "PM ADD")
      modifies this
      ensures Valid() && Snap() == LineStep(old(Snap()), id, input)
    {
      ghost var st := Snap();
      var n := handlers[id].name.value;
      var end := IndexOf(input, ';', 1);
      if end < 0 {
        // `input.substring(1, -1)` throws; the exception ends the loop
        assert Classify(input) == Malformed;
        Cleanup(id);
      } else {
        assert Classify(input) == Chat(ParseBoolean(input[1..end]), input[end + 1..]);
        assert HandlerOk(st, id) && NameKnown(st, id);
        Route(n, ParseBoolean(input[1..end]), input[end + 1..]);
        assert Snap() == st.(log := log);
        assert Snap() == LineStep(st, id, input);
        InvIgnoresTables(st, blockList, groups, log);
      }
    }

    /** The `finally` block (Server.java:191-201). */
    method Cleanup(id: SessionId)
      requires Valid() && id in handlers
      requires handlers[id].phase.AwaitingName? || handlers[id].phase.Chatting?
      modifies this
      ensures Valid() && Snap() == CleanupStep(old(Snap()), id)
    {
      ghost var st := Snap();
      var h := handlers[id];
      writers := writers - {id};
      if h.name.Some? {
        names := names - {h.name.value};
        Announce(writers, LeftLine(h.name.value));
      }
      handlers := handlers[id := Handler(h.name, Closed)];
      ghost var closed := st.(writers := st.writers - {id}, handlers := st.handlers[id := Handler(h.name, Closed)]);
      if h.name.Some? {
        assert Snap() == closed.(names := st.names - {h.name.value},
                                 log := Send(st.log, st.writers - {id}, LeftLine(h.name.value)));
      } else {
        assert Snap() == closed;
      }
      CleanupKeepsInv(st, id);
    }

    /** `for (PrintWriter writer : targets) writer.println(line)` */
    method Announce(targets: set<SessionId>, line: string)
      modifies this`log
      ensures log == Send(old(log), targets, line)
    {
      var rest := targets;
      while rest != {}
        invariant rest <= targets
        invariant log.Keys == old(log).Keys
        invariant forall w :: w in log ==> log[w] == if w in targets - rest then old(log)[w] + [line] else old(log)[w]
        decreases rest
      {
        var w :| w in rest;
        if w in log {
          log := log[w := log[w] + [line]];
        }
        rest := rest - {w};
      }
    }

    /** BLOCK (Server.java:98-109) */
    method BlockNames(owner: string, ws: seq<string>)
      modifies this`blockList
      ensures blockList == AddAll(old(blockList), owner, ws)
    {
      if owner !in blockList {
        blockList := blockList[owner := {}];
      }
      assert blockList[owner] == SetOf(old(blockList), owner) + Elements(ws[..0]);
      for i := 0 to |ws|
        invariant blockList == AddAll(old(blockList), owner, ws[..i])
      {
        ElementsSnoc(ws[..i], ws[i]);
        assert ws[..i + 1] == ws[..i] + [ws[i]];
        assert blockList[owner] + {ws[i]} == SetOf(old(blockList), owner) + Elements(ws[..i + 1]);
        blockList := blockList[owner := blockList[owner] + {ws[i]}];
      }
      assert ws[..|ws|] == ws;
    }

    /** UNBLOCK (Server.java:112-124) */
    method UnblockNames(owner: string, ws: seq<string>)
      modifies this`blockList
      ensures blockList == RemoveAll(old(blockList), owner, ws)
    {
      if owner !in blockList {
        return;
      }
      assert blockList[owner] - Elements(ws[..0]) == blockList[owner];
      for i := 0 to |ws|
        invariant blockList == RemoveAll(old(blockList), owner, ws[..i])
      {
        ElementsSnoc(ws[..i], ws[i]);
        assert ws[..i + 1] == ws[..i] + [ws[i]];
        assert blockList[owner] - {ws[i]} == old(blockList)[owner] - Elements(ws[..i + 1]);
        blockList := blockList[owner := blockList[owner] - {ws[i]}];
      }
      assert ws[..|ws|] == ws;
    }

    /** PM REMOVE (Server.java:128-140): no registration check. */
    method RemoveMembers(owner: string, ws: seq<string>)
      modifies this`groups
      ensures groups == RemoveAll(old(groups), owner, ws)
    {
      if owner !in groups {
        return;
      }
      assert groups[owner] - Elements(ws[..0]) == groups[owner];
      for i := 0 to |ws|
        invariant groups == RemoveAll(old(groups), owner, ws[..i])
      {
        ElementsSnoc(ws[..i], ws[i]);
        assert ws[..i + 1] == ws[..i] + [ws[i]];
        assert groups[owner] - {ws[i]} == old(groups)[owner] - Elements(ws[..i + 1]);
        groups := groups[owner := groups[owner] - {ws[i]}];
      }
      assert ws[..|ws|] == ws;
    }

    /** PM ADD (Server.java:144-157): only names in `names` get in. */
    method AddMembers(owner: string, ws: seq<string>)
      modifies this`groups
      ensures groups == AddRegistered(old(groups), owner, ws, names)
    {
      if owner !in groups {
        groups := groups[owner := {}];
      }
      assert groups[owner] == SetOf(old(groups), owner) + (Elements(ws[..0]) * names);
      for i := 0 to |ws|
        invariant groups == AddRegistered(old(groups), owner, ws[..i], names)
      {
        ElementsSnoc(ws[..i], ws[i]);
        assert ws[..i + 1] == ws[..i] + [ws[i]];
        if ws[i] in names {
          assert groups[owner] + {ws[i]} == SetOf(old(groups), owner) + (Elements(ws[..i + 1]) * names);
          groups := groups[owner := groups[owner] + {ws[i]}];
        } else {
          assert groups[owner] == SetOf(old(groups), owner) + (Elements(ws[..i + 1]) * names);
        }
      }
      assert ws[..|ws|] == ws;
    }

    /** `private_chat_writers` (Server.java:164-169), in the order the loop builds it. */
    method CollectPrivateWriters(sender: string) returns (ws: seq<SessionId>)
      requires Valid() && sender in nameWriter
      ensures multiset(ws) == Recipients(Snap(), sender, true)
    {
      ws := [];
      var members := SetOf(groups, sender);
      var rest := members;
      while rest != {}
        invariant rest <= members
        invariant multiset(ws) == multiset(WritersOf(nameWriter, members - rest))
        decreases rest
      {
        var m :| m in rest;
        WritersOfInsert(Snap(), members - rest, m);
        assert members - (rest - {m}) == (members - rest) + {m};
        if m in nameWriter {
          ws := ws + [nameWriter[m]];
        }
        rest := rest - {m};
      }
      assert members - rest == members;
      ws := ws + [nameWriter[sender]];
    }

    /** The delivery loop with its block filter (Server.java:171-185). */
    method Deliver(targets: seq<SessionId>, sender: string, line: string)
      modifies this`log
      ensures log == Deliveries(old(log), blockList, writerName, sender, targets, line)
    {
      for i := 0 to |targets|
        invariant log == Deliveries(old(log), blockList, writerName, sender, targets[..i], line)
      {
        var w := targets[i];
        assert targets[..i + 1][..i] == targets[..i];
        var blocked := w in writerName && (writerName[w] in SetOf(blockList, sender) || sender in SetOf(blockList, writerName[w]));
        if !blocked && w in log {
          log := log[w := log[w] + [line]];
        }
      }
      assert targets[..|targets|] == targets;
    }

    /** Message routing (Server.java:164-185). */
    method Route(sender: string, privateMode: bool, text: string)
      requires Valid() && sender in nameWriter
      modifies this`log
      ensures log == RouteLog(old(Snap()), sender, privateMode, text)
    {
      ghost var st := Snap();
      var privateWriters := CollectPrivateWriters(sender);
      var targets := privateWriters;
      if !privateMode {
        targets := Enumerate(writers);
      }
      assert multiset(targets) == Recipients(st, sender, privateMode);
      Deliver(targets, sender, ChatLine(sender, text));
      RouteLogByDeliveries(st, sender, privateMode, text, targets);
    }
  }
}
