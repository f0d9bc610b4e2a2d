/** The bot's per-user in-memory stores: the selected repository of each user
    (bot/repository_manager.py) and the last agent each user worked with
    (bot/agent_manager.py). Both are a dictionary from Telegram user id to a
    string, read with `get`, written by assignment and emptied with
    `pop(user_id, None)`; `UserStore` is that dictionary, and each of the two
    files holds one instance of it. */
module UserStores {
  import opened Schemas

  /** `d.get(userId)`. */
  function Lookup(m: map<int, string>, userId: int): (r: Option<string>)
    ensures r.Some? <==> userId in m
    ensures r.Some? ==> r.value == m[userId]
  {
    if userId in m then Some(m[userId]) else None
  }

  class UserStore {
    var entries: map<int, string>

    /** The store starts empty, as at import time. */
    constructor ()
      ensures entries == map[]
    {
      entries := map[];
    }

    /** `get_selected_repository` / `get_last_agent_id`: the stored value, or
        None for a user with nothing stored. */
    method Get(userId: int) returns (r: Option<string>)
      ensures r.Some? <==> userId in entries
      ensures r.Some? ==> r.value == entries[userId]
    {
      if userId in entries {
        r := Some(entries[userId]);
      } else {
        r := None;
      }
    }

    /** `set_selected_repository` / `set_last_agent_id`: the user's entry
        becomes `value`, whatever it was; no other entry changes. */
    method Set(userId: int, value: string)
      modifies this
      ensures entries == old(entries)[userId := value] == Apply(old(entries), SetTo(userId, value))
      ensures Lookup(entries, userId) == Some(value)
      ensures forall u :: u != userId ==> Lookup(entries, u) == Lookup(old(entries), u)
    {
      entries := entries[userId := value];
    }

    /** `clear_selected_repository` / `clear_last_agent_id`: the user's entry
        goes away; a user with no entry is no error and changes nothing. */
    method Clear(userId: int)
      modifies this
      ensures entries == old(entries) - {userId} == Apply(old(entries), Cleared(userId))
      ensures Lookup(entries, userId) == None
      ensures userId !in old(entries) ==> entries == old(entries)
      ensures forall u :: u != userId ==> Lookup(entries, u) == Lookup(old(entries), u)
    {
      entries := entries - {userId};
    }
  }

  // ---------------------------------------------------------------- histories

  /** One write to a store. */
  datatype Update = SetTo(userId: int, value: string) | Cleared(userId: int)

  /** The dictionary after one write. */
  function Apply(m: map<int, string>, w: Update): (r: map<int, string>)
    ensures Lookup(r, w.userId) == if w.SetTo? then Some(w.value) else None
    ensures forall u :: u != w.userId ==> Lookup(r, u) == Lookup(m, u)
  {
    match w
    case SetTo(userId, value) => m[userId := value]
    case Cleared(userId) => m - {userId}
  }

  /** The dictionary after a sequence of writes, oldest first. */
  function ApplyAll(m: map<int, string>, ws: seq<Update>): map<int, string>
    decreases |ws|
  {
    if ws == [] then m else ApplyAll(Apply(m, ws[0]), ws[1..])
  }

  /** What the last write to `userId` in `ws` left, or `before` when nothing
      in `ws` writes to it. */
  function LastWrite(ws: seq<Update>, userId: int, before: Option<string>): (r: Option<string>)
    decreases |ws|
  {
    if ws == [] then before
    else
      var w := ws[|ws| - 1];
      if w.userId == userId then (if w.SetTo? then Some(w.value) else None)
      else LastWrite(ws[..|ws| - 1], userId, before)
  }

  /** Replaying writes one at a time agrees with replaying all but the last
      and then the last. */
  lemma {:induction false} ApplyAllSnoc(m: map<int, string>, ws: seq<Update>, w: Update)
    ensures ApplyAll(m, ws + [w]) == Apply(ApplyAll(m, ws), w)
    decreases |ws|
  {
    if ws == [] {
      assert ApplyAll(Apply(m, w), []) == Apply(m, w);
      assert [w][1..] == [];
    } else {
      assert (ws + [w])[0] == ws[0];
      assert (ws + [w])[1..] == ws[1..] + [w];
      ApplyAllSnoc(Apply(m, ws[0]), ws[1..], w);
    }
  }

  /** Last write wins: after any sequence of sets and clears, a user's entry is
      what the last write to that user left, and what it was before when no
      write touched that user. */
  lemma {:induction false} LastWriteWins(m: map<int, string>, ws: seq<Update>, userId: int)
    ensures Lookup(ApplyAll(m, ws), userId) == LastWrite(ws, userId, Lookup(m, userId))
    decreases |ws|
  {
    if ws != [] {
      var init := ws[..|ws| - 1];
      var w := ws[|ws| - 1];
      assert ws == init + [w];
      ApplyAllSnoc(m, init, w);
      LastWriteWins(m, init, userId);
    }
  }

  /** Writes for other users never change a user's entry. */
  lemma {:induction false} OthersNeverInterfere(m: map<int, string>, ws: seq<Update>, userId: int)
    requires forall i :: 0 <= i < |ws| ==> ws[i].userId != userId
    ensures Lookup(ApplyAll(m, ws), userId) == Lookup(m, userId)
    decreases |ws|
  {
    if ws != [] {
      OthersNeverInterfere(Apply(m, ws[0]), ws[1..], userId);
    }
  }

  /** The store's methods are the writes of this model: a `Set` followed by a
      `Get` yields the value set, and a second `Set` overwrites the first. */
  lemma SetThenSet(m: map<int, string>, userId: int, first: string, second: string)
    ensures Lookup(ApplyAll(m, [SetTo(userId, first), SetTo(userId, second)]), userId) == Some(second)
  {
    LastWriteWins(m, [SetTo(userId, first), SetTo(userId, second)], userId);
  }

  /** A `Clear` after a `Set` leaves the user with nothing stored. */
  lemma SetThenClear(m: map<int, string>, userId: int, value: string)
    ensures Lookup(ApplyAll(m, [SetTo(userId, value), Cleared(userId)]), userId) == None
  {
    LastWriteWins(m, [SetTo(userId, value), Cleared(userId)], userId);
  }
}
