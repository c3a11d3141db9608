/** The identity record at rest: a master key wrapped under one password, or, during a change, under two. */
module IdentityRecord {
  import opened Crypto

  /** A password with its salt derives a key; a master key is drawn at random. */
  datatype LocalKey = Derived(password: string, salt: nat) | Master(id: nat)

  datatype Cipher<+T> = Cipher(key: LocalKey, content: T)

  datatype Record<+D> =
    | V1(salt: nat, blob: Cipher<D>)
    | V2(salt: nat, wrap: Cipher<LocalKey>, blob: Cipher<D>, altSalt: Option<nat>, altWrap: Option<Cipher<LocalKey>>)

  datatype Opened<+D> = Opened(doc: D, masterKey: LocalKey, migrated: Option<Record<D>>)

  /** `BrokenBlob` is any other exception: the master key does not open the document. */
  datatype OpenError = WrongPassword | BrokenBlob

  function Decrypt<T>(key: LocalKey, c: Cipher<T>): Option<T> {
    if c.key == key then Some(c.content) else None
  }

  function SingleWrap<D>(salt: nat, wrap: Cipher<LocalKey>, blob: Cipher<D>): Record<D> {
    V2(salt, wrap, blob, None, None)
  }

  function Seal<D>(doc: D, password: string, masterKey: LocalKey, salt: nat): Record<D> {
    SingleWrap(salt, Cipher(Derived(password, salt), masterKey), Cipher(masterKey, doc))
  }

  /** `salt` is used only when an old record gets its first wrap. */
  function Open<D>(r: Record<D>, password: string, salt: nat): Result<Opened<D>, OpenError> {
    match r
    case V1(oldSalt, blob) => (
      match Decrypt(Derived(password, oldSalt), blob)
      case None => Err(WrongPassword)
      case Some(doc) =>
        var masterKey := Derived(password, oldSalt);
        Ok(Opened(doc, masterKey, Some(SingleWrap(salt, Cipher(Derived(password, salt), masterKey), blob)))))
    case V2(mainSalt, wrap, blob, altSalt, altWrap) =>
      var viaMain := Decrypt(Derived(password, mainSalt), wrap);
      var viaAlt := if altSalt.None? || altWrap.None? then None
                    else Decrypt(Derived(password, altSalt.value), altWrap.value);
      var masterKey := if viaMain.Some? then viaMain else viaAlt;
      match masterKey
      case None => Err(WrongPassword)
      case Some(key) =>
        match Decrypt(key, blob)
        case None => Err(BrokenBlob)
        case Some(doc) =>
          Ok(Opened(doc, key, if altWrap.None? then None
                              else if viaMain.Some? then Some(SingleWrap(mainSalt, wrap, blob))
                              else Some(SingleWrap(altSalt.value, altWrap.value, blob))))
  }

  function Stage<D>(r: Record<D>, current: string, next: string, salt: nat, altSalt: nat)
    : Result<Record<D>, OpenError>
  {
    match Open(r, current, salt)
    case Err(e) => Err(e)
    case Ok(o) =>
      var base := if o.migrated.Some? then o.migrated.value else r;
      assert base.V2?;
      Ok(V2(base.salt, base.wrap, base.blob, Some(altSalt), Some(Cipher(Derived(next, altSalt), o.masterKey))))
  }

  function Promote<D>(r: Record<D>): Record<D>
    requires r.V2?
  {
    if r.altSalt.None? || r.altWrap.None? then SingleWrap(r.salt, r.wrap, r.blob)
    else SingleWrap(r.altSalt.value, r.altWrap.value, r.blob)
  }

  function Abort<D>(r: Record<D>): Record<D>
    requires r.V2?
  {
    SingleWrap(r.salt, r.wrap, r.blob)
  }

  // ---- records as they occur ----

  /** The record keeps `masterKey` and `doc` under its main password and, if staged, a second one. */
  ghost predicate Keeps<D>(r: Record<D>, masterKey: LocalKey, doc: D) {
    && r.blob == Cipher(masterKey, doc)
    && match r
       case V1(salt, _) => masterKey.Derived? && masterKey.salt == salt
       case V2(salt, wrap, _, altSalt, altWrap) =>
         && wrap.content == masterKey && wrap.key.Derived? && wrap.key.salt == salt
         && (altSalt.Some? <==> altWrap.Some?)
         && (altWrap.Some? ==>
               && altWrap.value.content == masterKey
               && altWrap.value.key.Derived? && altWrap.value.key.salt == altSalt.value)
  }

  function MainPassword<D>(r: Record<D>): string {
    match r
    case V1(_, blob) => if blob.key.Derived? then blob.key.password else ""
    case V2(_, wrap, _, _, _) => if wrap.key.Derived? then wrap.key.password else ""
  }

  function Staged<D>(r: Record<D>): Option<string> {
    if r.V2? && r.altWrap.Some? && r.altWrap.value.key.Derived? then Some(r.altWrap.value.key.password) else None
  }

  predicate Unlocks<D>(r: Record<D>, password: string) {
    password == MainPassword(r) || Staged(r) == Some(password)
  }

  lemma SealKeeps<D>(doc: D, password: string, masterKey: LocalKey, salt: nat)
    ensures var r := Seal(doc, password, masterKey, salt);
            Keeps(r, masterKey, doc) && MainPassword(r) == password && Staged(r).None?
  {
  }

  /** Exactly the record's passwords open it, all to one master key and document; opening a staged record settles it. */
  lemma OpensExactly<D>(r: Record<D>, masterKey: LocalKey, doc: D, password: string, salt: nat)
    requires Keeps(r, masterKey, doc)
    ensures var o := Open(r, password, salt);
            if !Unlocks(r, password) then o == Err(WrongPassword)
            else
              && o.Ok? && o.value.doc == doc && o.value.masterKey == masterKey
              && (o.value.migrated.Some? <==> r.V1? || Staged(r).Some?)
              && (o.value.migrated.Some? ==>
                    var m := o.value.migrated.value;
                    m.V2? && Keeps(m, masterKey, doc) && MainPassword(m) == password && Staged(m).None?)
  {
  }

  /** Staging proves the current password and adds the next one; the document is untouched. */
  lemma StageAddsPassword<D>(r: Record<D>, masterKey: LocalKey, doc: D, current: string, next: string, salt: nat,
                             altSalt: nat)
    requires Keeps(r, masterKey, doc)
    ensures var s := Stage(r, current, next, salt, altSalt);
            if !Unlocks(r, current) then s == Err(WrongPassword)
            else
              && s.Ok? && s.value.V2? && Keeps(s.value, masterKey, doc)
              && MainPassword(s.value) == current && Staged(s.value) == Some(next)
  {
  }

  /** Settling keeps one of the two passwords: the next one on success, the current one on failure. */
  lemma SettleKeepsOne<D>(r: Record<D>, masterKey: LocalKey, doc: D)
    requires Keeps(r, masterKey, doc) && r.V2?
    ensures Keeps(Promote(r), masterKey, doc) && Staged(Promote(r)).None?
    ensures MainPassword(Promote(r)) == if Staged(r).Some? then Staged(r).value else MainPassword(r)
    ensures Keeps(Abort(r), masterKey, doc) && Staged(Abort(r)).None? && MainPassword(Abort(r)) == MainPassword(r)
  {
  }
}
