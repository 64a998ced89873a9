/**
 * The root state: the nonce counter and the owned collections, the
 * `gensym` id allocator, and `save`, which hands the state to an optional
 * storage backend.
 */
module State {
  import opened Foreign
  import opened Document
  import Nonce

  /** `eyre::Result<()>`. */
  datatype Outcome = Ok | Err(report: Report)

  /**
   * The persisted form of the state: every field except the storage
   * backend, which serde skips.
   */
  datatype Snapshot = Snapshot(
    nonce: u64,
    stateCookie: u64,
    exportNonceMap: map<Uuid, u64>,
    username: string,
    pronouns: (string, string, string),
    me: Person,
    dmStorage: seq<DM>,
    journalStorage: seq<JournalPage>,
    doiStorage: map<string, seq<u8>>)

  /**
   * A storage backend. It is handed the state as something it can only
   * serialise, so what it sees is the persisted form; what it does with it
   * and what it answers are its own.
   */
  class Backend {
    const save: Snapshot -> Outcome

    constructor (save: Snapshot -> Outcome)
      ensures this.save == save
    {
      this.save := save;
    }
  }

  /** All the state of one session. */
  class Slf {
    /** The counter behind every id: anything numbered from it is meant to be unique. */
    var nonce: u64
    /** Set by the server per connection; names the state a diff applies to. */
    var stateCookie: u64
    /** Uuids some ids are exported as; no operation here reads or writes it. */
    var exportNonceMap: map<Uuid, u64>
    var username: string
    var pronouns: (string, string, string)
    var me: Person
    var dmStorage: seq<DM>
    var journalStorage: seq<JournalPage>
    var doiStorage: map<string, seq<u8>>
    /** Not persisted. */
    var storageBackend: Option<Backend>

    /** What serialising the state writes. */
    function Persisted(): Snapshot
      reads this
    {
      Snapshot(nonce, stateCookie, exportNonceMap, username, pronouns, me,
               dmStorage, journalStorage, doiStorage)
    }

    /** Deserialising a persisted state: every persisted field is restored and the skipped backend is absent. */
    constructor FromSnapshot(p: Snapshot)
      ensures Persisted() == p
      ensures storageBackend.None?
    {
      nonce := p.nonce;
      stateCookie := p.stateCookie;
      exportNonceMap := p.exportNonceMap;
      username := p.username;
      pronouns := p.pronouns;
      me := p.me;
      dmStorage := p.dmStorage;
      journalStorage := p.journalStorage;
      doiStorage := p.doiStorage;
      storageBackend := None;
    }

    /**
     * Issues a fresh id: the counter plus one, which also becomes the new
     * counter. Nothing but the counter changes. The counter must not be at
     * its maximum, where the addition overflows.
     */
    method Gensym() returns (id: u64)
      requires nonce < U64_MAX
      modifies this
      ensures id as int == old(nonce) as int + 1
      ensures nonce == id
      ensures Persisted() == old(Persisted()).(nonce := id)
      ensures storageBackend == old(storageBackend)
    {
      var before := nonce;
      var after := before + 1;
      nonce := after;
      id := after;
    }

    /**
     * `k` calls of `Gensym` in a row return exactly the ids `Issued` names,
     * and leave the counter `k` above where it stood. Nothing else changes.
     */
    method GensymMany(k: nat) returns (ids: seq<u64>)
      requires nonce as int + k <= U64_MAX as int
      modifies this
      ensures ids == Nonce.Issued(old(nonce), k)
      ensures nonce as int == old(nonce) as int + k
      ensures Persisted() == old(Persisted()).(nonce := nonce)
      ensures storageBackend == old(storageBackend)
    {
      ids := [];
      var i := 0;
      while i < k
        invariant 0 <= i <= k
        invariant nonce as int == old(nonce) as int + i
        invariant ids == Nonce.Issued(old(nonce), i)
        invariant Persisted() == old(Persisted()).(nonce := nonce)
        invariant storageBackend == old(storageBackend)
      {
        Nonce.IssuedSplit(old(nonce), i, 1);
        var id := Gensym();
        ids := ids + [id];
        i := i + 1;
      }
    }

    /**
     * With no backend, succeeds and does nothing; with one, hands it the
     * whole persisted state and answers exactly what the backend answers.
     */
    function Save(): (r: Outcome)
      reads this
      ensures storageBackend.None? ==> r == Ok
      ensures storageBackend.Some? ==> r == storageBackend.value.save(Persisted())
    {
      match storageBackend
      case None => Ok
      case Some(backend) => backend.save(Persisted())
    }

    /**
     * A copy whose counter and collections are its own; the backend is
     * shared, as a cloned `Arc` is.
     */
    method Clone() returns (c: Slf)
      ensures fresh(c)
      ensures c.Persisted() == Persisted()
      ensures c.storageBackend == storageBackend
    {
      c := new Slf.FromSnapshot(Persisted());
      c.storageBackend := storageBackend;
    }
  }

  /** A state loaded from its persisted form has no backend, so saving it succeeds and does nothing. */
  method RestoreThenSave(p: Snapshot) returns (r: Outcome)
    ensures r == Ok
  {
    var s := new Slf.FromSnapshot(p);
    r := s.Save();
  }

  /** The counter is persisted, so a state loaded from a snapshot issues its first id just above the snapshot's counter. */
  method ResumeAfterRestore(p: Snapshot) returns (id: u64)
    requires p.nonce < U64_MAX
    ensures id as int == p.nonce as int + 1
  {
    var s := new Slf.FromSnapshot(p);
    id := s.Gensym();
  }

  /**
   * Ids issued by a state, then by a state loaded from its snapshot, never
   * collide: every id issued after the reload is above every id before it.
   */
  method IdsSurviveRestart(s: Slf, j: nat, k: nat) returns (before: seq<u64>, after: seq<u64>)
    requires s.nonce as int + j + k <= U64_MAX as int
    modifies s
    ensures forall x, y :: x in before && y in after ==> x < y
    ensures forall x :: x in before ==> x !in after
  {
    ghost var start := s.nonce;
    before := s.GensymMany(j);
    var t := new Slf.FromSnapshot(s.Persisted());
    after := t.GensymMany(k);
    assert after == Nonce.Issued(start + j as u64, k);
    Nonce.IssuedValues(start, j);
    Nonce.IssuedValues(start + j as u64, k);
    Nonce.IssuedDisjoint(start, j, k);
  }

  /**
   * The counter lives in each copy: a clone and its original, each asked
   * for an id, hand out the same one. Uniqueness holds per state object.
   */
  method CloneRepeatsIds(s: Slf) returns (a: u64, b: u64)
    requires s.nonce < U64_MAX
    modifies s
    ensures a == b
  {
    var c := s.Clone();
    a := s.Gensym();
    b := c.Gensym();
  }
}
