/**
 * The two-tier store for plans awaiting a "yes" (services/pending_plans.py): a dictionary in
 * each gateway process and one table shared by all of them.
 *
 * This file holds the store itself: the pure slot operations, and the class whose methods run
 * the code's own sequence of memory and table operations. PlanRaces.dfy interleaves them.
 */
module PendingPlans {
  import opened Calls

  /** Seconds an unconfirmed proposal stays valid; set by the deployment. */
  const PLAN_TTL_S: int

  /** A plan belongs to a user and a conversation. */
  type Key = (string, string)

  const NO_CHAT := "_nochat"

  function KeyOf(user: string, chat: Option<string>): Key {
    (user, if chat == None || chat == Some("") then NO_CHAT else chat.value)
  }

  /** Two conversations share a slot exactly when the user is the same and the chats are the same
      or both normalise to the fallback. A chat whose real id is "_nochat" therefore does share it. */
  lemma KeysSeparateChats(u: string, c: Option<string>, u': string, c': Option<string>)
    ensures KeyOf(u, c) == KeyOf(u', c') <==>
            u == u' && (c == c' || {c, c'} <= {None, Some(""), Some(NO_CHAT)})
  {
    assert c in {c, c'} && c' in {c, c'};
  }

  /** One stored copy of a plan. `id` names the save that made it; `expires` is None for a row
      whose expiry cannot be read. */
  datatype Copy = Copy(id: nat, calls: seq<Call>, expires: Option<int>)

  predicate Expired(expires: Option<int>, now: int) {
    expires.Some? && now >= expires.value
  }

  type Slots = map<Key, Copy>

  datatype Tier = Memory | Table

  /** What a take answers once it holds the copy it popped: nothing if there was none or it has
      expired; an empty list of calls counts as nothing when it came from the table. */
  function Answer(found: Option<Copy>, tier: Tier, now: int): Option<seq<Call>> {
    match found
    case None => None
    case Some(c) =>
      if Expired(c.expires, now) || (tier == Table && c.calls == []) then None else Some(c.calls)
  }

  function Lookup(slots: Slots, k: Key): Option<Copy> {
    if k in slots then Some(slots[k]) else None
  }

  // --- the store a caller may imagine: one TTL slot per key -----------------------------------

  function SlotSave(slots: Slots, k: Key, c: Copy): Slots { slots[k := c] }
  function SlotDrop(slots: Slots, k: Key): Slots { slots - {k} }

  // --- the code -------------------------------------------------------------------------------

  /** How one table request ends for the caller: answered, refused without effect (or the table
      is not configured), or carried out with the response lost. */
  datatype Reply = Answered | Refused | Lost

  datatype Source = Db | DbExpired | DbMiss | FromMemory

  /** The table all gateway processes share. */
  class PlanTable {
    var rows: Slots

    constructor () ensures rows == map[] { rows := map[]; }

    /** POST with merge-duplicates: replaces the row of the same key. */
    method Post(k: Key, row: Copy, reply: Reply)
      modifies this
      ensures rows == if reply == Refused then old(rows) else SlotSave(old(rows), k, row)
    {
      if reply != Refused { rows := rows[k := row]; }
    }

    /** DELETE returning the rows it removed. */
    method Delete(k: Key, reply: Reply) returns (removed: Option<Copy>)
      modifies this
      ensures removed == Lookup(old(rows), k)
      ensures rows == if reply == Refused then old(rows) else SlotDrop(old(rows), k)
    {
      removed := Lookup(rows, k);
      if reply != Refused { rows := rows - {k}; }
    }
  }

  /** One gateway process. */
  class PlanStore {
    const table: PlanTable
    var memory: Slots

    constructor (table: PlanTable)
      ensures this.table == table && memory == map[]
    {
      this.table := table;
      memory := map[];
    }

    method MemSave(user: string, chat: Option<string>, calls: seq<Call>, id: nat, now: int)
      modifies this`memory
      ensures memory == SlotSave(old(memory), KeyOf(user, chat), Copy(id, calls, Some(now + PLAN_TTL_S)))
    {
      memory := memory[KeyOf(user, chat) := Copy(id, calls, Some(now + PLAN_TTL_S))];
    }

    method MemTake(user: string, chat: Option<string>, now: int) returns (calls: Option<seq<Call>>)
      modifies this`memory
      ensures memory == SlotDrop(old(memory), KeyOf(user, chat))
      ensures calls == Answer(Lookup(old(memory), KeyOf(user, chat)), Memory, now)
    {
      var k := KeyOf(user, chat);
      var entry := Lookup(memory, k);
      memory := memory - {k};
      if entry == None {
        return None;
      }
      calls := if Expired(entry.value.expires, now) then None else Some(entry.value.calls);
    }

    method MemClear(user: string, chat: Option<string>)
      modifies this`memory
      ensures memory == SlotDrop(old(memory), KeyOf(user, chat))
    {
      memory := memory - {KeyOf(user, chat)};
    }

    /** `memNow` and `rowNow` are the clock readings behind the two copies' expiries. */
    method Save(user: string, chat: Option<string>, calls: seq<Call>, id: nat, memNow: int, rowNow: int, reply: Reply)
      returns (source: Source)
      modifies this`memory, table
      ensures var k := KeyOf(user, chat);
        && memory == SlotSave(old(memory), k, Copy(id, calls, Some(memNow + PLAN_TTL_S)))
        && table.rows == (if reply == Refused then old(table.rows)
                          else SlotSave(old(table.rows), k, Copy(id, calls, Some(rowNow + PLAN_TTL_S))))
      ensures source == if reply == Answered then Db else FromMemory
    {
      MemSave(user, chat, calls, id, memNow);
      var row := Copy(id, calls, Some(rowNow + PLAN_TTL_S));
      table.Post(KeyOf(user, chat), row, reply);
      source := if reply == Answered then Db else FromMemory;
    }

    method Take(user: string, chat: Option<string>, now: int, reply: Reply)
      returns (calls: Option<seq<Call>>, source: Source)
      modifies this`memory, table
      ensures var k := KeyOf(user, chat);
        && memory == SlotDrop(old(memory), k)
        && table.rows == (if reply == Refused then old(table.rows) else SlotDrop(old(table.rows), k))
        && calls == (if reply == Answered then Answer(Lookup(old(table.rows), k), Table, now)
                     else Answer(Lookup(old(memory), k), Memory, now))
      ensures source == FromMemory <==> reply != Answered
      ensures source == DbMiss <==> reply == Answered && KeyOf(user, chat) !in old(table.rows)
    {
      var rows := table.Delete(KeyOf(user, chat), reply);
      if reply == Answered {
        MemClear(user, chat);
        if rows.Some? {
          var row := rows.value;
          if Expired(row.expires, now) {
            return None, DbExpired;
          }
          return if row.calls == [] then None else Some(row.calls), Db;
        }
        return None, DbMiss;
      }
      calls := MemTake(user, chat, now);
      source := FromMemory;
    }

    method Clear(user: string, chat: Option<string>, reply: Reply)
      modifies this`memory, table
      ensures var k := KeyOf(user, chat);
        && memory == SlotDrop(old(memory), k)
        && table.rows == (if reply == Refused then old(table.rows) else SlotDrop(old(table.rows), k))
    {
      MemClear(user, chat);
      var _ := table.Delete(KeyOf(user, chat), reply);
    }
  }
}
