/**
 * A handshake that ends in the name loop frees a name that another session holds.
 *
 * `Handler.run` stores every candidate in the handler's `name` field before it
 * asks whether the name is free (Server.java:67-75), and the `finally` block
 * removes whatever that field holds from `names` and announces its departure
 * (Server.java:195-200). A connection that offers a name already in use and then
 * drops therefore removes the name of the session that owns it, tells every
 * writer that the owner has left, and lets a third connection register the same
 * name while the owner still chats under it.
 *
 * This module states the invariant the name loop is meant to keep (the
 * registered names are exactly the names of the sessions that were accepted and
 * have not left, and no two of those share a name), exhibits the step of
 * `CleanupStep` that breaks it, and proves that the corrected cleanup, which
 * releases a name only for a session that joined, keeps it at every step.
 */
module Findings {
  import opened Wrappers
  import opened JavaString
  import opened Protocol
  import opened ServerSpec

  /** A handler whose name was accepted and which has not left. */
  predicate Live(h: Handler)
  {
    h.phase.Accepted? || h.phase.Chatting?
  }

  /** The names held by live handlers. */
  function LiveNames(handlers: map<SessionId, Handler>): set<string>
  {
    set id | id in handlers && Live(handlers[id]) && handlers[id].name.Some? :: handlers[id].name.value
  }

  /**
   * `names` is exactly the set of names live sessions hold, none of them blank,
   * and no two live sessions hold the same name.
   */
  ghost predicate NamesLive(st: State)
  {
    && st.names == LiveNames(st.handlers)
    && (forall n :: n in st.names ==> !IsBlank(n))
    && (forall a, b ::
          (a in st.handlers && b in st.handlers && Live(st.handlers[a]) && Live(st.handlers[b])
           && st.handlers[a].name == st.handlers[b].name) ==> a == b)
  }

  /** Setting one handler changes the live names by at most its old and its new name. */
  lemma LiveNamesUpdate(hs: map<SessionId, Handler>, id: SessionId, h: Handler)
    requires id in hs && Live(hs[id]) ==> forall o :: o in hs && o != id && Live(hs[o]) ==> hs[o].name != hs[id].name
    ensures LiveNames(hs[id := h]) ==
      (LiveNames(hs) - (if id in hs && Live(hs[id]) && hs[id].name.Some? then {hs[id].name.value} else {}))
      + (if Live(h) && h.name.Some? then {h.name.value} else {})
  {
    var r := hs[id := h];
    var gone := if id in hs && Live(hs[id]) && hs[id].name.Some? then {hs[id].name.value} else {};
    var added := if Live(h) && h.name.Some? then {h.name.value} else {};
    forall x | x in LiveNames(r) ensures x in (LiveNames(hs) - gone) + added {
      var o :| o in r && Live(r[o]) && r[o].name.Some? && r[o].name.value == x;
      if o != id {
        assert x in LiveNames(hs);
      }
    }
    forall x | x in (LiveNames(hs) - gone) + added ensures x in LiveNames(r) {
      if x !in added {
        var o :| o in hs && Live(hs[o]) && hs[o].name.Some? && hs[o].name.value == x;
        assert o != id;
        assert r[o] == hs[o];
      } else {
        assert id in r && r[id] == h;
      }
    }
  }

  lemma NamesLiveInitial()
    ensures NamesLive(Initial())
  {
  }

  /** A new connection is not live: the names stay as they were. */
  lemma AcceptKeepsNamesLive(st: State)
    requires Inv(st) && NamesLive(st)
    ensures NamesLive(AcceptStep(st))
  {
    LiveNamesUpdate(st.handlers, st.nextId, Handler(None, AwaitingName));
  }

  /** A candidate is taken only if it is free and not blank, and its handler becomes live. */
  lemma SubmitKeepsNamesLive(st: State, id: SessionId, candidate: string)
    requires Inv(st) && NamesLive(st) && id in st.handlers && st.handlers[id].phase.AwaitingName?
    ensures NamesLive(SubmitStep(st, id, candidate))
  {
    var r := SubmitStep(st, id, candidate);
    LiveNamesUpdate(st.handlers, id, r.handlers[id]);
    if r.handlers[id].phase.Accepted? {
      forall o | o in st.handlers && o != id && Live(st.handlers[o]) ensures st.handlers[o].name != Some(candidate) {
        assert st.handlers[o].name.value in LiveNames(st.handlers);
      }
    }
  }

  /** Joining keeps the name the handler was accepted with. */
  lemma JoinKeepsNamesLive(st: State, id: SessionId)
    requires Inv(st) && NamesLive(st) && id in st.handlers && st.handlers[id].phase.Accepted?
    ensures NamesLive(JoinStep(st, id))
  {
    var r := JoinStep(st, id);
    LiveNamesUpdate(st.handlers, id, r.handlers[id]);
    assert st.handlers[id].name.value in LiveNames(st.handlers);
  }

  /** The cleanup of a session that joined releases its name, which no other live session holds. */
  lemma CleanupChattingKeepsNamesLive(st: State, id: SessionId)
    requires Inv(st) && NamesLive(st) && id in st.handlers && st.handlers[id].phase.Chatting?
    ensures NamesLive(CleanupStep(st, id))
  {
    var r := CleanupStep(st, id);
    LiveNamesUpdate(st.handlers, id, r.handlers[id]);
  }

  /** A line of a chatting session keeps the names live, whether it leaves or stays. */
  lemma LineKeepsNamesLive(st: State, id: SessionId, input: string)
    requires Inv(st) && NamesLive(st) && id in st.handlers && st.handlers[id].phase.Chatting?
    ensures NamesLive(LineStep(st, id, input))
  {
    if Classify(input).Quit? || Classify(input).Malformed? {
      CleanupChattingKeepsNamesLive(st, id);
    }
  }

  // ---------------------------------------------------------------- as written

  /**
   * The cleanup as written, reached from the name loop after a refused candidate:
   * the owner of that name loses it from `names` and every writer, the owner
   * included, is told that it left, although it is still chatting under it.
   */
  lemma StaleCleanupFreesLiveName(st: State, a: SessionId, b: SessionId, n: string)
    requires Inv(st) && NamesLive(st)
    requires a in st.handlers && st.handlers[a] == Handler(Some(n), Chatting)
    requires b in st.handlers && st.handlers[b].phase.AwaitingName?
    ensures var mid := SubmitStep(st, b, n);
      && Inv(mid) && NamesLive(mid) && mid.handlers[b] == Handler(Some(n), AwaitingName)
      && var r := CleanupStep(mid, b);
         && n !in r.names
         && r.handlers[a] == Handler(Some(n), Chatting)
         && r.log[a] == st.log[a] + [LeftLine(n)]
         && !NamesLive(r)
  {
    assert HandlerOk(st, a);
    assert n in LiveNames(st.handlers);
    var mid := SubmitStep(st, b, n);
    SubmitKeepsInv(st, b, n);
    SubmitKeepsNamesLive(st, b, n);
    var r := CleanupStep(mid, b);
    assert a in r.handlers && Live(r.handlers[a]) && r.handlers[a].name == Some(n);
    assert n in LiveNames(r.handlers);
  }

  /** After that cleanup, a third connection registers the name while its owner still holds it. */
  lemma StaleCleanupAdmitsDuplicate(st: State, a: SessionId, b: SessionId, c: SessionId, n: string)
    requires Inv(st) && NamesLive(st)
    requires a in st.handlers && st.handlers[a] == Handler(Some(n), Chatting)
    requires b in st.handlers && st.handlers[b].phase.AwaitingName?
    requires c in st.handlers && st.handlers[c].phase.AwaitingName? && c != b
    ensures var mid := SubmitStep(st, b, n);
      && Inv(mid)
      && var r := CleanupStep(mid, b);
         && Inv(r) && r.handlers[c].phase.AwaitingName?
         && var dup := SubmitStep(r, c, n);
            && dup.handlers[c] == Handler(Some(n), Accepted)
            && dup.handlers[a] == Handler(Some(n), Chatting)
  {
    StaleCleanupFreesLiveName(st, a, b, n);
    var mid := SubmitStep(st, b, n);
    CleanupKeepsInv(mid, b);
    assert n in st.names;
  }

  // ---------------------------------------------------------------- corrected

  /**
   * The cleanup as intended: the name field is released, and the departure
   * announced, only for a session that joined; a session that ends in the name
   * loop leaves `names` and every log as they were.
   */
  function FixedCleanupStep(st: State, id: SessionId): State
    requires Inv(st) && id in st.handlers
    requires st.handlers[id].phase.AwaitingName? || st.handlers[id].phase.Chatting?
  {
    if st.handlers[id].phase.Chatting? then CleanupStep(st, id)
    else st.(writers := st.writers - {id}, handlers := st.handlers[id := Handler(st.handlers[id].name, Closed)])
  }

  lemma FixedCleanupKeepsInv(st: State, id: SessionId)
    requires Inv(st) && id in st.handlers
    requires st.handlers[id].phase.AwaitingName? || st.handlers[id].phase.Chatting?
    ensures Inv(FixedCleanupStep(st, id))
  {
    if st.handlers[id].phase.Chatting? {
      CleanupKeepsInv(st, id);
    } else {
      var r := FixedCleanupStep(st, id);
      forall x ensures HandlerOk(r, x) { assert HandlerOk(st, x); }
      forall m ensures MapsBack(r, m) { assert MapsBack(st, m); }
      forall w ensures NameKnown(r, w) { assert NameKnown(st, w); }
    }
  }

  lemma FixedCleanupKeepsNamesLive(st: State, id: SessionId)
    requires Inv(st) && NamesLive(st) && id in st.handlers
    requires st.handlers[id].phase.AwaitingName? || st.handlers[id].phase.Chatting?
    ensures NamesLive(FixedCleanupStep(st, id))
  {
    if st.handlers[id].phase.Chatting? {
      CleanupChattingKeepsNamesLive(st, id);
    } else {
      LiveNamesUpdate(st.handlers, id, Handler(st.handlers[id].name, Closed));
    }
  }

  /**
   * With the corrected cleanup, the same run leaves the owner's name registered
   * and its log untouched, and the third connection's claim is refused.
   */
  lemma FixedCleanupKeepsLiveName(st: State, a: SessionId, b: SessionId, c: SessionId, n: string)
    requires Inv(st) && NamesLive(st)
    requires a in st.handlers && st.handlers[a] == Handler(Some(n), Chatting)
    requires b in st.handlers && st.handlers[b].phase.AwaitingName?
    requires c in st.handlers && st.handlers[c].phase.AwaitingName? && c != b
    ensures var mid := SubmitStep(st, b, n);
      && Inv(mid)
      && var r := FixedCleanupStep(mid, b);
         && Inv(r) && NamesLive(r) && n in r.names && r.log[a] == st.log[a]
         && r.handlers[c].phase.AwaitingName?
         && SubmitStep(r, c, n).handlers[c].phase.AwaitingName?
  {
    assert n in LiveNames(st.handlers);
    var mid := SubmitStep(st, b, n);
    SubmitKeepsInv(st, b, n);
    SubmitKeepsNamesLive(st, b, n);
    FixedCleanupKeepsInv(mid, b);
    FixedCleanupKeepsNamesLive(mid, b);
  }
}
