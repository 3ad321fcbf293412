/**
 * The server's two relation tables, `block_list` and `private_group_members_of_person`
 * (Server.java:21-23): maps from an owner name to a set of names, updated by the
 * BLOCK / UNBLOCK / PM REMOVE / PM ADD commands of that owner.
 */
module Relations {

  type Table = map<string, set<string>>

  /** `table.getOrDefault(owner, new HashSet<>())` */
  function SetOf(m: Table, owner: string): set<string>
  {
    if owner in m then m[owner] else {}
  }

  function Elements(ws: seq<string>): set<string>
  {
    set w | w in ws
  }

  /** BLOCK: create the owner's set if it is missing, then add every listed name. */
  function AddAll(m: Table, owner: string, ws: seq<string>): Table
  {
    m[owner := SetOf(m, owner) + Elements(ws)]
  }

  /** UNBLOCK and PM REMOVE: nothing happens without a set; otherwise every listed name leaves it. */
  function RemoveAll(m: Table, owner: string, ws: seq<string>): Table
  {
    if owner !in m then m else m[owner := m[owner] - Elements(ws)]
  }

  /** PM ADD: create the owner's group if it is missing, then add the listed names that are registered. */
  function AddRegistered(m: Table, owner: string, ws: seq<string>, registered: set<string>): Table
  {
    m[owner := SetOf(m, owner) + (Elements(ws) * registered)]
  }

  /** The delivery filter: either side's block set names the other. */
  predicate Blocked(bl: Table, a: string, b: string)
  {
    b in SetOf(bl, a) || a in SetOf(bl, b)
  }

  lemma ElementsSnoc(ws: seq<string>, w: string)
    ensures Elements(ws + [w]) == Elements(ws) + {w}
  {
    assert forall x :: x in ws + [w] <==> x in ws || x == w;
  }

  /** Blocking is symmetric: it does not matter which of the two owns the block entry. */
  lemma BlockedSymmetric(bl: Table, a: string, b: string)
    ensures Blocked(bl, a, b) <==> Blocked(bl, b, a)
  {
  }

  /** BLOCK touches only the owner's set, which gains exactly the listed names. */
  lemma AddAllEffect(m: Table, owner: string, ws: seq<string>)
    ensures AddAll(m, owner, ws).Keys == m.Keys + {owner}
    ensures SetOf(AddAll(m, owner, ws), owner) == SetOf(m, owner) + Elements(ws)
    ensures forall o :: o != owner ==> SetOf(AddAll(m, owner, ws), o) == SetOf(m, o)
  {
  }

  /** Nothing stops an owner from blocking itself; it is then blocked from itself. */
  lemma SelfBlockTakesEffect(m: Table, owner: string, ws: seq<string>)
    requires owner in ws
    ensures Blocked(AddAll(m, owner, ws), owner, owner)
  {
  }

  /** Repeating a BLOCK command changes nothing. */
  lemma AddAllIdempotent(m: Table, owner: string, ws: seq<string>)
    ensures AddAll(AddAll(m, owner, ws), owner, ws) == AddAll(m, owner, ws)
  {
  }

  /** UNBLOCK and PM REMOVE without a set change nothing; otherwise exactly the listed names leave the owner's set. */
  lemma RemoveAllEffect(m: Table, owner: string, ws: seq<string>)
    ensures owner !in m ==> RemoveAll(m, owner, ws) == m
    ensures owner in m ==> RemoveAll(m, owner, ws).Keys == m.Keys
    ensures SetOf(RemoveAll(m, owner, ws), owner) == SetOf(m, owner) - Elements(ws)
    ensures forall o :: o != owner ==> SetOf(RemoveAll(m, owner, ws), o) == SetOf(m, o)
  {
  }

  /** UNBLOCK after BLOCK of the same names leaves the owner's set without those names. */
  lemma RemoveUndoesAdd(m: Table, owner: string, ws: seq<string>)
    ensures SetOf(RemoveAll(AddAll(m, owner, ws), owner, ws), owner) == SetOf(m, owner) - Elements(ws)
  {
  }

  /**
   * PM ADD lets in exactly the listed names that are registered: the group gains
   * the listed names that are registered and nothing else; a name not in
   * `registered` is skipped, every registered listed name ends up in the group.
   */
  lemma AddRegisteredEffect(m: Table, owner: string, ws: seq<string>, registered: set<string>)
    ensures AddRegistered(m, owner, ws, registered).Keys == m.Keys + {owner}
    ensures SetOf(AddRegistered(m, owner, ws, registered), owner) == SetOf(m, owner) + (Elements(ws) * registered)
    ensures SetOf(AddRegistered(m, owner, ws, registered), owner) - SetOf(m, owner) <= registered
    ensures forall w :: w in ws && w in registered ==> w in SetOf(AddRegistered(m, owner, ws, registered), owner)
    ensures forall w :: w in ws && w !in registered && w !in SetOf(m, owner) ==>
      w !in SetOf(AddRegistered(m, owner, ws, registered), owner)
    ensures forall o :: o != owner ==> SetOf(AddRegistered(m, owner, ws, registered), o) == SetOf(m, o)
  {
  }
}
