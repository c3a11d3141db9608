/**
 The sessions kept for one contact. Array elements are distinct objects in the source, so a
 session is identified by its position, never by its value.
 */
module SessionRecord {
  import opened Crypto

  const MAX_SESSIONS_PER_CONTACT: nat := 3

  datatype Record<+E> = Record(sessions: seq<E>, current: nat)

  /** What may be on disk: the old shape with a single session, or a set with an unchecked index. */
  datatype Blob<+E> = Legacy(entry: E) | Stored(sessions: seq<E>, current: int)

  function Normalize<E>(b: Blob<E>): (r: Option<Record<E>>)
    ensures r.Some? ==> r.value.current < |r.value.sessions|
  {
    match b
    case Legacy(entry) => Some(Record([entry], 0))
    case Stored(sessions, current) =>
      if sessions == [] then None
      else Some(Record(sessions, if 0 <= current < |sessions| then current else 0))
  }

  function CapSessions<E>(sessions: seq<E>, current: nat, cap: nat): Record<E>
    requires current < |sessions| && cap > 0
  {
    if |sessions| <= cap then Record(sessions, current)
    else
      var dropped := |sessions| - cap;
      var keep := sessions[dropped..];
      if current >= dropped then Record(keep, current - dropped) else Record(keep[0 := sessions[current]], 0)
  }

  /** The positions that survive, in order. */
  ghost function Survivors(n: nat, current: nat, cap: nat): (r: seq<nat>)
    requires current < n && cap > 0
  {
    if n <= cap then seq(n, k requires k >= 0 => k)
    else seq(cap, k requires k >= 0 => if k == 0 && current < n - cap then current else n - cap + k)
  }

  /**
   Capping keeps a subsequence: at most `cap` sessions, the current one among them, and every
   session it drops is older than every other session it keeps.
   */
  lemma CapDropsOldest<E>(sessions: seq<E>, current: nat, cap: nat)
    requires current < |sessions| && cap > 0
    ensures var r := CapSessions(sessions, current, cap);
            var kept := Survivors(|sessions|, current, cap);
            && |r.sessions| == |kept| == (if |sessions| <= cap then |sessions| else cap)
            && (forall k :: 0 <= k < |kept| ==> kept[k] < |sessions| && r.sessions[k] == sessions[kept[k]])
            && (forall j, k :: 0 <= j < k < |kept| ==> kept[j] < kept[k])
            && r.current < |kept| && kept[r.current] == current
            && (forall d, k :: 0 <= d < |sessions| && d !in kept && 0 <= k < |kept| && kept[k] != current ==>
                  d < kept[k])
  {
    var n := |sessions|;
    var kept := Survivors(n, current, cap);
    if n > cap {
      forall d | n - cap + (if current < n - cap then 1 else 0) <= d < n ensures d in kept {
        assert kept[d - (n - cap)] == d;
      }
    } else {
      forall d | 0 <= d < n ensures d in kept {
        assert kept[d] == d;
      }
    }
  }

  // ---- the keystore's session operations, on the stored blob of one contact ----

  function Save<E>(b: Option<Blob<E>>, entry: E): Blob<E> {
    match (if b.Some? then Normalize(b.value) else None)
    case None => Stored([entry], 0)
    case Some(r) => Stored(r.sessions[r.current := entry], r.current)
  }

  /** No effect on a missing record or an index out of range. */
  function SaveAt<E>(b: Option<Blob<E>>, index: int, entry: E): Option<Blob<E>> {
    match (if b.Some? then Normalize(b.value) else None)
    case None => b
    case Some(r) => if 0 <= index < |r.sessions| then Some(Stored(r.sessions[index := entry], r.current)) else b
  }

  function Add<E>(b: Option<Blob<E>>, entry: E, makeCurrent: bool): Blob<E> {
    match (if b.Some? then Normalize(b.value) else None)
    case None => Stored([entry], 0)
    case Some(r) =>
      var sessions := r.sessions + [entry];
      var capped := CapSessions(sessions, if makeCurrent then |r.sessions| else r.current, MAX_SESSIONS_PER_CONTACT);
      Stored(capped.sessions, capped.current)
  }

  function ReplaceAll<E>(entry: E): Blob<E> {
    Stored([entry], 0)
  }

  /** One to three sessions, and the current one is among them. */
  predicate Sound<E>(b: Blob<E>) {
    match b
    case Legacy(_) => true
    case Stored(sessions, current) => 1 <= |sessions| <= MAX_SESSIONS_PER_CONTACT && 0 <= current < |sessions|
  }

  predicate SoundIfAny<E>(b: Option<Blob<E>>) {
    b.Some? ==> Sound(b.value)
  }

  lemma SavesKeepSound<E>(b: Option<Blob<E>>, entry: E, index: int)
    requires SoundIfAny(b)
    ensures Sound(Save(b, entry)) && SoundIfAny(SaveAt(b, index, entry))
  {
  }

  lemma AddKeepsSound<E>(b: Option<Blob<E>>, entry: E, makeCurrent: bool)
    requires SoundIfAny(b)
    ensures Sound(Add(b, entry, makeCurrent))
  {
  }

  /** Saving writes the current session and no sibling; saving at an index writes that one and no sibling. */
  lemma SiblingsUntouched<E>(b: Blob<E>, entry: E, index: nat, k: nat)
    requires Sound(b) && k < |Normalize(b).value.sessions| && index < |Normalize(b).value.sessions|
    ensures var r := Normalize(b).value;
            var saved := Normalize(Save(Some(b), entry)).value;
            var at := Normalize(SaveAt(Some(b), index, entry).value).value;
            && |saved.sessions| == |at.sessions| == |r.sessions| && saved.current == at.current == r.current
            && saved.sessions[k] == (if k == r.current then entry else r.sessions[k])
            && at.sessions[k] == (if k == index then entry else r.sessions[k])
  {
  }

  /** Adopting keeps the session sent on and the newcomer, and sends on the one that was asked for. */
  lemma AddKeepsCurrentAndNew<E>(b: Blob<E>, entry: E, makeCurrent: bool)
    requires Sound(b)
    ensures var r := Normalize(b).value;
            var a := Normalize(Add(Some(b), entry, makeCurrent)).value;
            && a.sessions[a.current] == (if makeCurrent then entry else r.sessions[r.current])
            && a.sessions[|a.sessions| - 1] == entry
            && (|r.sessions| < MAX_SESSIONS_PER_CONTACT ==> a.sessions == r.sessions + [entry])
  {
  }

  // ---- the records of all contacts, updated in place ----

  class SessionStore<E> {
    var records: map<string, Blob<E>>

    ghost predicate Valid()
      reads this
    {
      forall c :: c in records ==> Sound(records[c])
    }

    constructor ()
      ensures Valid() && records == map[]
    {
      records := map[];
    }

    function Read(contact: string): Option<Blob<E>>
      reads this
    {
      if contact in records then Some(records[contact]) else None
    }

    method SaveSession(contact: string, entry: E)
      requires Valid()
      modifies this
      ensures Valid() && records == old(records)[contact := Save(old(Read(contact)), entry)]
    {
      SavesKeepSound(Read(contact), entry, 0);
      var existing := if contact in records then Normalize(records[contact]) else None;
      if existing.None? {
        records := records[contact := Stored([entry], 0)];
        return;
      }
      var sessions := existing.value.sessions;
      sessions := sessions[existing.value.current := entry];
      records := records[contact := Stored(sessions, existing.value.current)];
    }

    method SaveSessionAt(contact: string, index: int, entry: E)
      requires Valid()
      modifies this
      ensures Valid()
      ensures match SaveAt(old(Read(contact)), index, entry)
              case Some(b) => records == old(records)[contact := b]
              case None => records == old(records)
    {
      SavesKeepSound(Read(contact), entry, index);
      var existing := if contact in records then Normalize(records[contact]) else None;
      if existing.None? || index < 0 || index >= |existing.value.sessions| {
        return;
      }
      var sessions := existing.value.sessions;
      sessions := sessions[index := entry];
      records := records[contact := Stored(sessions, existing.value.current)];
    }

    method AddSession(contact: string, entry: E, makeCurrent: bool)
      requires Valid()
      modifies this
      ensures Valid() && records == old(records)[contact := Add(old(Read(contact)), entry, makeCurrent)]
    {
      AddKeepsSound(Read(contact), entry, makeCurrent);
      var existing := if contact in records then Normalize(records[contact]) else None;
      if existing.None? {
        records := records[contact := Stored([entry], 0)];
        return;
      }
      var sessions := existing.value.sessions + [entry];
      var current := if makeCurrent then |sessions| - 1 else existing.value.current;
      var capped := CapSessions(sessions, current, MAX_SESSIONS_PER_CONTACT);
      records := records[contact := Stored(capped.sessions, capped.current)];
    }

    method ReplaceSessionSet(contact: string, entry: E)
      requires Valid()
      modifies this
      ensures Valid() && records.Keys == old(records).Keys + {contact}
      ensures Normalize(records[contact]) == Some(Record([entry], 0))
      ensures forall c :: c in old(records) && c != contact ==> records[c] == old(records)[c]
    {
      records := records[contact := Stored([entry], 0)];
    }

    /** The session outgoing messages are encrypted on. */
    method LoadSession(contact: string) returns (r: Option<E>)
      requires Valid()
      ensures r == match Read(contact)
                   case None => None
                   case Some(b) => Some(Normalize(b).value.sessions[Normalize(b).value.current])
    {
      if contact !in records {
        return None;
      }
      var record := Normalize(records[contact]).value;
      r := Some(record.sessions[record.current]);
    }
  }
}
