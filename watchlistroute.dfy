/**
 * The watchlist handlers of app/api/watchlist/route.ts over the watchlist
 * table, which holds at most one entry per (user, media item) pair. Every
 * request acts for user 1. The storage layer refuses a NaN id, a missing
 * media item, a priority that is not an enumeration name, notes that are
 * not text, and an update or delete of a missing entry; the handler reports
 * each refusal as its 500 reply. User 1 is taken to exist: a missing user
 * row would be a refusal just as a missing media item is.
 */
module WatchlistRoute {
  import opened Wrappers
  import opened JsValue
  import opened Types

  const DefaultUser := 1

  /** The unique key `userId_mediaId`. */
  type EntryKey = (int, int)

  /** A watchlist entry; instants are integers. */
  datatype WatchEntry = WatchEntry(id: int, priority: Priority, notes: Option<string>, createdAt: int)

  datatype Reply =
    | Created(entry: WatchEntry)
    | Removed
    | Updated(entry: WatchEntry)
    | Listed(entries: map<EntryKey, WatchEntry>)
    | Failure(status: nat, error: string)

  function Status(r: Reply): nat {
    match r
    case Created(_) => 201
    case Removed => 200
    case Updated(_) => 200
    case Listed(_) => 200
    case Failure(s, _) => s
  }

  /** A priority the storage layer accepts: the text of an enumeration name. */
  function PriorityValue(v: Value): (r: Option<Priority>)
    ensures r.Some? <==> v.Str? && ParsePriority(v.s).Some?
  {
    if v.Str? then ParsePriority(v.s) else None
  }

  /** Notes the storage layer accepts: text, or null. */
  function NotesValue(v: Value): (r: Option<Option<string>>)
    ensures r.Some? <==> v.Str? || v.Null?
  {
    match v
    case Str(s) => Some(Some(s))
    case Null => Some(None)
    case _ => None
  }

  /** The destructuring defaults: a missing priority is "MEDIUM", missing notes are "". */
  function WithDefault(v: Value, d: string): Value {
    if v.Undefined? then Str(d) else v
  }

  /** The reply of POST; `now` is the creation instant the storage layer stamps. */
  function PostReply(entries: map<EntryKey, WatchEntry>, nextId: int, media: set<int>,
                     mediaId: Value, priority: Value, notes: Value, now: int): (r: Reply)
    ensures !Truthy(mediaId) ==> r == Failure(400, "Media ID is required")
    ensures Truthy(mediaId) && ParseIntOf(mediaId).Some? && (DefaultUser, ParseIntOf(mediaId).value) in entries
      ==> r == Failure(400, "Already in watchlist")
    ensures r.Created? <==> (Truthy(mediaId) && ParseIntOf(mediaId).Some?
      && (DefaultUser, ParseIntOf(mediaId).value) !in entries && ParseIntOf(mediaId).value in media
      && PriorityValue(WithDefault(priority, "MEDIUM")).Some? && NotesValue(WithDefault(notes, "")).Some?)
    ensures r.Created? ==> r.entry == WatchEntry(nextId, PriorityValue(WithDefault(priority, "MEDIUM")).value,
      NotesValue(WithDefault(notes, "")).value, now)
    ensures r.Created? || r.Failure?
    ensures Truthy(mediaId) && !r.Created? && r != Failure(400, "Already in watchlist")
      ==> r == Failure(500, "Failed to add to watchlist")
  {
    var p := PriorityValue(WithDefault(priority, "MEDIUM"));
    var n := NotesValue(WithDefault(notes, ""));
    if !Truthy(mediaId) then Failure(400, "Media ID is required")
    else
      match ParseIntOf(mediaId)
      case None => Failure(500, "Failed to add to watchlist")
      case Some(id) =>
        if (DefaultUser, id) in entries then Failure(400, "Already in watchlist")
        else if id !in media || p.None? || n.None? then Failure(500, "Failed to add to watchlist")
        else Created(WatchEntry(nextId, p.value, n.value, now))
  }

  function AfterPost(entries: map<EntryKey, WatchEntry>, mediaId: Value, r: Reply): map<EntryKey, WatchEntry>
    requires r.Created? ==> ParseIntOf(mediaId).Some?
  {
    if r.Created? then entries[(DefaultUser, ParseIntOf(mediaId).value) := r.entry] else entries
  }

  /** The reply of DELETE: a missing entry is a storage refusal. */
  function DeleteReply(entries: map<EntryKey, WatchEntry>, mediaId: Value): (r: Reply)
    ensures !Truthy(mediaId) ==> r == Failure(400, "Media ID is required")
    ensures r == Removed <==> (Truthy(mediaId) && ParseIntOf(mediaId).Some?
      && (DefaultUser, ParseIntOf(mediaId).value) in entries)
    ensures r != Removed && Truthy(mediaId) ==> r == Failure(500, "Failed to remove from watchlist")
  {
    if !Truthy(mediaId) then Failure(400, "Media ID is required")
    else if ParseIntOf(mediaId).None? || (DefaultUser, ParseIntOf(mediaId).value) !in entries then
      Failure(500, "Failed to remove from watchlist")
    else Removed
  }

  function AfterDelete(entries: map<EntryKey, WatchEntry>, mediaId: Value): (r: map<EntryKey, WatchEntry>)
    ensures DeleteReply(entries, mediaId) == Removed ==>
      var k := (DefaultUser, ParseIntOf(mediaId).value);
      k !in r && (forall j :: j != k ==> (j in r <==> j in entries) && (j in r ==> r[j] == entries[j]))
    ensures DeleteReply(entries, mediaId) != Removed ==> r == entries
  {
    if DeleteReply(entries, mediaId) == Removed then entries - {(DefaultUser, ParseIntOf(mediaId).value)} else entries
  }

  /** `updateData` applied: only the fields the body supplies change. */
  function Patched(e: WatchEntry, priority: Option<Priority>, notes: Option<Option<string>>): (r: WatchEntry)
    ensures r.id == e.id && r.createdAt == e.createdAt
    ensures r.priority == if priority.Some? then priority.value else e.priority
    ensures r.notes == if notes.Some? then notes.value else e.notes
  {
    WatchEntry(e.id, if priority.Some? then priority.value else e.priority,
               if notes.Some? then notes.value else e.notes, e.createdAt)
  }

  /** A supplied field that the storage layer accepts, `None` for an omitted one. */
  function Supplied<T>(v: Value, read: Option<T>): Option<T> {
    if v.Undefined? then None else read
  }

  /** The update is refusable only in what is supplied. */
  predicate Acceptable(priority: Value, notes: Value) {
    (priority.Undefined? || PriorityValue(priority).Some?) && (notes.Undefined? || NotesValue(notes).Some?)
  }

  /** The reply of PATCH. */
  function PatchReply(entries: map<EntryKey, WatchEntry>, mediaId: Value, priority: Value, notes: Value): (r: Reply)
    ensures !Truthy(mediaId) ==> r == Failure(400, "Media ID is required")
    ensures r.Updated? <==> (Truthy(mediaId) && ParseIntOf(mediaId).Some?
      && (DefaultUser, ParseIntOf(mediaId).value) in entries && Acceptable(priority, notes))
    ensures !r.Updated? && Truthy(mediaId) ==> r == Failure(500, "Failed to update watchlist item")
    ensures r.Updated? && !priority.Undefined? ==> r.entry.priority == PriorityValue(priority).value
    ensures r.Updated? && !notes.Undefined? ==> r.entry.notes == NotesValue(notes).value
  {
    if !Truthy(mediaId) then Failure(400, "Media ID is required")
    else if ParseIntOf(mediaId).None? || (DefaultUser, ParseIntOf(mediaId).value) !in entries
         || !Acceptable(priority, notes) then
      Failure(500, "Failed to update watchlist item")
    else
      var e := entries[(DefaultUser, ParseIntOf(mediaId).value)];
      Updated(Patched(e, Supplied(priority, PriorityValue(priority)), Supplied(notes, NotesValue(notes))))
  }

  function AfterPatch(entries: map<EntryKey, WatchEntry>, mediaId: Value, r: Reply): map<EntryKey, WatchEntry>
    requires r.Updated? ==> ParseIntOf(mediaId).Some?
  {
    if r.Updated? then entries[(DefaultUser, ParseIntOf(mediaId).value) := r.entry] else entries
  }

  /** The entries GET returns: user 1's. */
  function UserEntries(entries: map<EntryKey, WatchEntry>): (r: map<EntryKey, WatchEntry>)
    ensures forall k :: k in r <==> k in entries && k.0 == DefaultUser
    ensures forall k :: k in r ==> r[k] == entries[k]
  {
    map k | k in entries && k.0 == DefaultUser :: entries[k]
  }

  /** Every entry's id is below the next one handed out, and no two entries share an id. */
  predicate WellFormed(entries: map<EntryKey, WatchEntry>, nextId: int) {
    && (forall k :: k in entries ==> entries[k].id < nextId)
    && (forall k, j :: k in entries && j in entries && k != j ==> entries[k].id != entries[j].id)
  }

  /** `updateData`: each field the body supplies, and whether the storage layer refuses one of them. */
  method UpdateData(priority: Value, notes: Value)
    returns (newPriority: Option<Priority>, newNotes: Option<Option<string>>, refused: bool)
    ensures newPriority == Supplied(priority, PriorityValue(priority))
    ensures newNotes == Supplied(notes, NotesValue(notes))
    ensures refused == !Acceptable(priority, notes)
  {
    newPriority, newNotes, refused := None, None, false;
    if !priority.Undefined? {
      newPriority := PriorityValue(priority);
      refused := newPriority.None?;
    }
    if !notes.Undefined? {
      newNotes := NotesValue(notes);
      refused := refused || newNotes.None?;
    }
  }

  class WatchlistTable {
    var entries: map<EntryKey, WatchEntry>
    var nextId: int
    /** The ids of the media items, which an entry must reference. */
    const media: set<int>

    predicate Valid()
      reads this
    {
      WellFormed(entries, nextId)
    }

    constructor(media: set<int>)
      ensures Valid() && entries == map[] && nextId == 1 && this.media == media
    {
      entries := map[];
      nextId := 1;
      this.media := media;
    }

    /** POST: defaults, guard, `findUnique` on the key, then one create. */
    method Post(mediaId: Value, priority: Value, notes: Value, now: int) returns (reply: Reply)
      requires Valid()
      modifies this
      ensures Valid()
      ensures reply == PostReply(old(entries), old(nextId), media, mediaId, priority, notes, now)
      ensures entries == AfterPost(old(entries), mediaId, reply)
      ensures nextId == if reply.Created? then old(nextId) + 1 else old(nextId)
    {
      var p := PriorityValue(WithDefault(priority, "MEDIUM"));
      var n := NotesValue(WithDefault(notes, ""));
      if !Truthy(mediaId) {
        return Failure(400, "Media ID is required");
      }
      var parsed := ParseIntOf(mediaId);
      if parsed.None? {
        return Failure(500, "Failed to add to watchlist");
      }
      var key := (DefaultUser, parsed.value);
      if key in entries {
        return Failure(400, "Already in watchlist");
      }
      if parsed.value !in media || p.None? || n.None? {
        return Failure(500, "Failed to add to watchlist");
      }
      reply := Insert(key, WatchEntry(nextId, p.value, n.value, now));
    }

    /** The insert of a new key, with the next id. */
    method Insert(key: EntryKey, entry: WatchEntry) returns (reply: Reply)
      requires Valid() && key !in entries && entry.id == nextId
      modifies this
      ensures Valid()
      ensures reply == Created(entry)
      ensures entries == old(entries)[key := entry] && nextId == old(nextId) + 1
    {
      entries := entries[key := entry];
      nextId := nextId + 1;
      reply := Created(entry);
    }

    /** DELETE: guard, then delete by key. */
    method Delete(mediaId: Value) returns (reply: Reply)
      requires Valid()
      modifies this
      ensures Valid()
      ensures reply == DeleteReply(old(entries), mediaId)
      ensures entries == AfterDelete(old(entries), mediaId)
      ensures nextId == old(nextId)
    {
      if !Truthy(mediaId) {
        return Failure(400, "Media ID is required");
      }
      var parsed := ParseIntOf(mediaId);
      if parsed.None? || (DefaultUser, parsed.value) !in entries {
        return Failure(500, "Failed to remove from watchlist");
      }
      entries := entries - {(DefaultUser, parsed.value)};
      reply := Removed;
    }

    /** PATCH: guard, build `updateData` from the supplied fields, update by key. */
    method Patch(mediaId: Value, priority: Value, notes: Value) returns (reply: Reply)
      requires Valid()
      modifies this
      ensures Valid()
      ensures reply == PatchReply(old(entries), mediaId, priority, notes)
      ensures entries == AfterPatch(old(entries), mediaId, reply)
      ensures nextId == old(nextId)
    {
      if !Truthy(mediaId) {
        return Failure(400, "Media ID is required");
      }
      var newPriority, newNotes, refused := UpdateData(priority, notes);
      var parsed := ParseIntOf(mediaId);
      if parsed.None? || (DefaultUser, parsed.value) !in entries || refused {
        return Failure(500, "Failed to update watchlist item");
      }
      var key := (DefaultUser, parsed.value);
      reply := Replace(key, Patched(entries[key], newPriority, newNotes));
    }

    /** The update of an existing key, keeping its id. */
    method Replace(key: EntryKey, entry: WatchEntry) returns (reply: Reply)
      requires Valid() && key in entries && entry.id == entries[key].id
      modifies this
      ensures Valid()
      ensures reply == Updated(entry)
      ensures entries == old(entries)[key := entry] && nextId == old(nextId)
    {
      PatchKeepsWellFormed(entries, nextId, key, entry);
      entries := entries[key := entry];
      reply := Updated(entry);
    }

    /** GET: user 1's entries. */
    method Get() returns (reply: Reply)
      ensures reply == Listed(UserEntries(entries))
    {
      reply := Listed(map k | k in entries && k.0 == DefaultUser :: entries[k]);
    }
  }

  /** Replacing an entry by one with the same id keeps the table well formed. */
  lemma PatchKeepsWellFormed(entries: map<EntryKey, WatchEntry>, nextId: int, key: EntryKey, entry: WatchEntry)
    requires WellFormed(entries, nextId) && key in entries && entry.id == entries[key].id
    ensures WellFormed(entries[key := entry], nextId)
  {
  }

  /** A second POST of the same id after a successful one is refused as a duplicate. */
  lemma PostTwice(entries: map<EntryKey, WatchEntry>, nextId: int, media: set<int>,
                  mediaId: Value, priority: Value, notes: Value, now: int, later: int)
    requires PostReply(entries, nextId, media, mediaId, priority, notes, now).Created?
    ensures var after := AfterPost(entries, mediaId, PostReply(entries, nextId, media, mediaId, priority, notes, now));
      PostReply(after, nextId + 1, media, mediaId, priority, notes, later) == Failure(400, "Already in watchlist")
  {
  }

  /** With neither priority nor notes in the body, the entry gets MEDIUM and empty notes. */
  lemma PostDefaults(entries: map<EntryKey, WatchEntry>, nextId: int, media: set<int>, mediaId: Value, now: int)
    requires Truthy(mediaId) && ParseIntOf(mediaId).Some?
    requires (DefaultUser, ParseIntOf(mediaId).value) !in entries && ParseIntOf(mediaId).value in media
    ensures PostReply(entries, nextId, media, mediaId, Undefined, Undefined, now)
         == Created(WatchEntry(nextId, MEDIUM, Some(""), now))
  {
    assert ParsePriority("MEDIUM") == Some(MEDIUM);
  }

  /** POST keeps ids fresh and distinct. */
  lemma PostKeepsWellFormed(entries: map<EntryKey, WatchEntry>, nextId: int, media: set<int>,
                            mediaId: Value, priority: Value, notes: Value, now: int)
    requires WellFormed(entries, nextId)
    ensures var r := PostReply(entries, nextId, media, mediaId, priority, notes, now);
      WellFormed(AfterPost(entries, mediaId, r), if r.Created? then nextId + 1 else nextId)
  {
  }

  /** A POST that creates an entry followed by a DELETE of the same id gives back the table before. */
  lemma PostThenDelete(entries: map<EntryKey, WatchEntry>, nextId: int, media: set<int>,
                       mediaId: Value, priority: Value, notes: Value, now: int)
    requires PostReply(entries, nextId, media, mediaId, priority, notes, now).Created?
    ensures var after := AfterPost(entries, mediaId, PostReply(entries, nextId, media, mediaId, priority, notes, now));
      DeleteReply(after, mediaId) == Removed && AfterDelete(after, mediaId) == entries
  {
    var after := AfterPost(entries, mediaId, PostReply(entries, nextId, media, mediaId, priority, notes, now));
    var k := (DefaultUser, ParseIntOf(mediaId).value);
    assert AfterDelete(after, mediaId).Keys == entries.Keys;
  }

  /** DELETE is not idempotent: the second one finds no entry and is reported as a failure. */
  lemma DeleteTwice(entries: map<EntryKey, WatchEntry>, mediaId: Value)
    requires DeleteReply(entries, mediaId) == Removed
    ensures DeleteReply(AfterDelete(entries, mediaId), mediaId) == Failure(500, "Failed to remove from watchlist")
  {
  }

  /** PATCH changes at most the keyed entry, and in it only the supplied fields. */
  lemma PatchChangesOnlySupplied(entries: map<EntryKey, WatchEntry>, mediaId: Value, priority: Value, notes: Value)
    requires PatchReply(entries, mediaId, priority, notes).Updated?
    ensures var k := (DefaultUser, ParseIntOf(mediaId).value);
      var after := AfterPatch(entries, mediaId, PatchReply(entries, mediaId, priority, notes));
      && after.Keys == entries.Keys
      && (forall j :: j in entries && j != k ==> after[j] == entries[j])
      && after[k].id == entries[k].id && after[k].createdAt == entries[k].createdAt
      && (priority.Undefined? ==> after[k].priority == entries[k].priority)
      && (notes.Undefined? ==> after[k].notes == entries[k].notes)
      && (priority.Undefined? && notes.Undefined? ==> after == entries)
  {
    var k := (DefaultUser, ParseIntOf(mediaId).value);
    var after := AfterPatch(entries, mediaId, PatchReply(entries, mediaId, priority, notes));
    if priority.Undefined? && notes.Undefined? {
      assert after[k] == entries[k];
    }
  }

  /** Repeating a PATCH leaves the table as the first one did. */
  lemma PatchIdempotent(entries: map<EntryKey, WatchEntry>, mediaId: Value, priority: Value, notes: Value)
    requires PatchReply(entries, mediaId, priority, notes).Updated?
    ensures var after := AfterPatch(entries, mediaId, PatchReply(entries, mediaId, priority, notes));
      AfterPatch(after, mediaId, PatchReply(after, mediaId, priority, notes)) == after
  {
    var k := (DefaultUser, ParseIntOf(mediaId).value);
    var after := AfterPatch(entries, mediaId, PatchReply(entries, mediaId, priority, notes));
    assert PatchReply(after, mediaId, priority, notes).entry == after[k];
  }
}
