/** _mutate_key of app/services/backend_ssh_keys.py: the keys of an output in the database, and
    the keys the host lets in.

    The table lists the keys in the order of their creation, which is the order in which a later
    call reads them while the clock does not go back. reconcile_backend_ssh_access either makes
    the host follow the rows it is given or leaves it alone; it may raise in both cases. */
module SshKeys {
  import opened Common
  import opened SshPublicKey
  import opened Text

  /** `name` stands for the case-folded name. */
  datatype Key = Key(id: nat, output: nat, name: nat, line: string, fingerprint: nat, revoked: bool)

  datatype Output = Output(app: bool, enabled: bool, lines: seq<string>)   // no lines: no public key

  datatype Database = Database(outputs: map<nat, Output>, keys: seq<Key>)

  predicate IsActive(k: Key, output: nat) { k.output == output && !k.revoked }

  /** list_backend_ssh_keys */
  function Active(keys: seq<Key>, output: nat): (r: seq<Key>)
    ensures forall k :: k in r <==> k in keys && IsActive(k, output)
  {
    if keys == [] then []
    else
      var last := keys[|keys| - 1];
      Active(keys[..|keys| - 1], output) + (if IsActive(last, output) then [last] else [])
  }

  /** The rows at these places, in the order of the table, are the listed ones. */
  ghost predicate Places(at: seq<nat>, keys: seq<Key>, listed: seq<Key>) {
    && |at| == |listed| && (forall i | 0 <= i < |at| :: at[i] < |keys| && keys[at[i]] == listed[i])
    && forall i, j | 0 <= i < j < |at| :: at[i] < at[j]
  }

  ghost predicate PlacesAll(at: seq<nat>, keys: seq<Key>, output: nat) {
    forall p | 0 <= p < |keys| :: p in at <==> keys[p].output == output && !keys[p].revoked
  }

  /** What a call lists are the rows of the output that are not revoked, each once, in the order of
      the table. */
  lemma {:induction false} ActiveInOrder(keys: seq<Key>, output: nat) returns (at: seq<nat>)
    ensures Places(at, keys, Active(keys, output)) && PlacesAll(at, keys, output)
  {
    at := [];
    if keys != [] {
      var front, last := keys[..|keys| - 1], keys[|keys| - 1];
      assert keys == front + [last];
      var before := ActiveInOrder(front, output);
      at := if IsActive(last, output) then before + [|front|] else before;
      OnePlaceMore(before, front, last, Active(front, output));
      AllPlacesMore(before, front, last, output, Active(front, output));
    }
  }

  lemma OnePlaceMore(at: seq<nat>, front: seq<Key>, last: Key, listed: seq<Key>)
    requires Places(at, front, listed)
    ensures Places(at, front + [last], listed) && Places(at + [|front|], front + [last], listed + [last])
  {
    assert forall i | 0 <= i < |at| :: (front + [last])[at[i]] == front[at[i]];
  }

  lemma AllPlacesMore(at: seq<nat>, front: seq<Key>, last: Key, output: nat, listed: seq<Key>)
    requires Places(at, front, listed) && PlacesAll(at, front, output)
    ensures PlacesAll(if IsActive(last, output) then at + [|front|] else at, front + [last], output)
  {
    assert |front| !in at;
    assert forall p | 0 <= p < |front| :: (front + [last])[p] == front[p];
  }

  function Lines(keys: seq<Key>): (r: seq<string>)
    ensures ListsLines(r, keys)
  {
    seq(|keys|, i requires 0 <= i < |keys| => keys[i].line)
  }

  /** The lines of these keys, in order. */
  predicate ListsLines(lines: seq<string>, keys: seq<Key>) {
    |lines| == |keys| && forall i | 0 <= i < |keys| :: lines[i] == keys[i].line
  }

  const MAX_KEYS := 100

  /** Active keys of one output have different names and fingerprints; ids are different anyway. */
  ghost predicate Distinct(keys: seq<Key>) {
    forall i, j | 0 <= i < j < |keys| ::
      && keys[i].id != keys[j].id
      && (keys[i].output == keys[j].output && !keys[i].revoked && !keys[j].revoked ==>
            keys[i].name != keys[j].name && keys[i].fingerprint != keys[j].fingerprint)
  }

  ghost predicate Valid(db: Database) {
    && Distinct(db.keys)
    && forall o | o in db.outputs :: |Active(db.keys, o)| <= MAX_KEYS && ListsLines(db.outputs[o].lines, Active(db.keys, o))
  }

  /** What reconcile_backend_ssh_access makes of the enabled app outputs. */
  function HostOf(db: Database): map<nat, seq<string>> {
    map o | o in db.outputs && db.outputs[o].app && db.outputs[o].enabled :: db.outputs[o].lines
  }

  /** The host lets in exactly the active keys of each enabled app output. */
  ghost predicate LetsIn(host: map<nat, seq<string>>, db: Database) {
    forall o: nat ::
      && (o in host <==> o in db.outputs && db.outputs[o].app && db.outputs[o].enabled)
      && (o in host ==> ListsLines(host[o], Active(db.keys, o)))
  }

  /** A valid table fixes what the host has to let in. */
  lemma HostOfIs(host: map<nat, seq<string>>, db: Database)
    requires Valid(db)
    ensures LetsIn(host, db) <==> host == HostOf(db)
  {
    if LetsIn(host, db) {
      forall o | o in host ensures host[o] == HostOf(db)[o] {
        assert ListsLines(host[o], Active(db.keys, o)) && ListsLines(db.outputs[o].lines, Active(db.keys, o));
      }
      assert host.Keys == HostOf(db).Keys;
    }
  }

  // ----- Adding and revoking in the table -----

  lemma ActiveAppend(keys: seq<Key>, key: Key, output: nat)
    ensures Active(keys + [key], output) == if IsActive(key, output) then Active(keys, output) + [key] else Active(keys, output)
  {
    assert (keys + [key])[..|keys|] == keys;
  }

  /** The keys but the one with this id. */
  function Without(keys: seq<Key>, id: nat): seq<Key> {
    if keys == [] then []
    else
      var last := keys[|keys| - 1];
      Without(keys[..|keys| - 1], id) + (if last.id != id then [last] else [])
  }

  lemma {:induction false} WithoutAbsent(keys: seq<Key>, id: nat)
    requires forall k | k in keys :: k.id != id
    ensures Without(keys, id) == keys
  {
    if keys != [] {
      var front, last := keys[..|keys| - 1], keys[|keys| - 1];
      assert keys == front + [last] && last in keys;
      assert Without(front, id) == front by {
        assert forall k | k in front :: k in keys;
        WithoutAbsent(front, id);
      }
    }
  }

  lemma {:induction false} WithoutIsShorter(keys: seq<Key>, id: nat)
    ensures |Without(keys, id)| <= |keys|
  {
    if keys != [] { WithoutIsShorter(keys[..|keys| - 1], id); }
  }

  function Revoked(keys: seq<Key>, i: nat): (r: seq<Key>)
    requires i < |keys|
  {
    keys[i := keys[i].(revoked := true)]
  }

  /** Revoking takes one key out of its output's active keys and leaves those of others alone. */
  lemma {:induction false} ActiveRevoke(keys: seq<Key>, i: nat, output: nat)
    requires i < |keys| && Distinct(keys)
    ensures Active(Revoked(keys, i), output) ==
            if keys[i].output == output then Without(Active(keys, output), keys[i].id) else Active(keys, output)
    decreases |keys|
  {
    var front, last := keys[..|keys| - 1], keys[|keys| - 1];
    assert keys == front + [last];
    DistinctFront(front, last);
    RevokedSplits(front, last, i);
    if i < |front| {
      ActiveRevoke(front, i, output);
      RevokeEarlier(front, i, last, output);
    } else {
      RevokeLast(front, last, last.(revoked := true), output);
    }
  }

  lemma DistinctFront(front: seq<Key>, last: Key)
    requires Distinct(front + [last])
    ensures Distinct(front) && forall k | k in front :: k.id != last.id
  {
    var keys := front + [last];
    assert keys[|front|] == last;
    assert forall i | 0 <= i < |front| :: keys[i] == front[i];
  }

  lemma RevokedSplits(front: seq<Key>, last: Key, i: nat)
    requires i <= |front|
    ensures Revoked(front + [last], i) == if i < |front| then Revoked(front, i) + [last] else front + [last.(revoked := true)]
  {
  }

  lemma RevokeEarlier(front: seq<Key>, i: nat, last: Key, output: nat)
    requires i < |front| && last.id != front[i].id
    requires Active(Revoked(front, i), output) ==
             if front[i].output == output then Without(Active(front, output), front[i].id) else Active(front, output)
    ensures Active(Revoked(front, i) + [last], output) ==
            if front[i].output == output then Without(Active(front + [last], output), front[i].id) else Active(front + [last], output)
  {
    ActiveAppend(Revoked(front, i), last, output);
    ActiveAppend(front, last, output);
    WithoutAppend(Active(front, output), last, front[i].id);
  }

  lemma RevokeLast(front: seq<Key>, key: Key, gone: Key, output: nat)
    requires forall k | k in front :: k.id != key.id
    requires gone.revoked && gone.output == key.output
    ensures Active(front + [gone], output) ==
            if key.output == output then Without(Active(front + [key], output), key.id) else Active(front + [key], output)
  {
    var before := Active(front, output);
    assert Active(front + [gone], output) == before by { ActiveAppend(front, gone, output); }
    assert Without(before, key.id) == before by { WithoutAbsent(before, key.id); }
    ActiveAppend(front, key, output);
    if IsActive(key, output) {
      WithoutAppend(before, key, key.id);
    }
  }

  lemma WithoutAppend(keys: seq<Key>, key: Key, id: nat)
    ensures Without(keys + [key], id) == if key.id != id then Without(keys, id) + [key] else Without(keys, id)
  {
    assert (keys + [key])[..|keys|] == keys;
  }

  // ----- Requests -----

  /** What the call gets from outside: case folding, base64 decoding, the digest. */
  datatype World = World(fold: string -> nat, decode: string -> Option<Blob>, digest: Blob -> nat)

  datatype Request =
    | Add(output: nat, name: string, publicKey: Option<string>)   // without a public key one is generated
    | Revoke(output: nat, id: nat)

  datatype Fate = Fine | RaisesBefore | RaisesAfter

  datatype Faults = Faults(
    generated: Option<string>,        // ssh-keygen's public key, or it raises
    draws: seq<nat>,                  // the random ids
    flushRaises: bool, reconcile: Fate, commit: Fate, recovery: Fate)

  datatype Reply = Done(id: nat) | NotFound | BadName | NameTaken | TooMany | NoPair | BadKey | KeyTaken | NoId | Interrupted

  predicate NameOk(name: string) {
    name != "" && |name| <= 80 && forall i | 0 <= i < |name| :: name[i] as int >= 32 && name[i] as int != 127
  }

  /** Empty, too long, or with a control character. */
  ghost predicate BadlyNamed(name: string) {
    |name| == 0 || |name| >= 81 || exists c :: c in name && (c < ' ' || c == 127 as char)
  }

  lemma NameOkIff(name: string)
    ensures NameOk(name) <==> !BadlyNamed(name)
  {
    if !NameOk(name) && 1 <= |name| <= 80 {
      var i :| 0 <= i < |name| && (name[i] as int < 32 || name[i] as int == 127);
      assert name[i] in name && (name[i] < ' ' || name[i] == 127 as char);
    }
  }

  /** Every stored line is one the parser takes, with the stored fingerprint. */
  ghost predicate Parsed(keys: seq<Key>, w: World) {
    forall i | 0 <= i < |keys| :: ParsePublicKey(keys[i].line, w.decode, w.digest) == Ok((keys[i].line, keys[i].fingerprint))
  }

  predicate HasId(keys: seq<Key>, id: nat) { exists i :: 0 <= i < |keys| && keys[i].id == id }

  /** _allocate_key_id */
  method AllocateKeyId(keys: seq<Key>, draws: seq<nat>) returns (id: Option<nat>)
    ensures id.Some? ==> !HasId(keys, id.value)
    ensures id.None? <==> forall d | 0 <= d < |draws| && d < 100 :: HasId(keys, draws[d])
  {
    var d := 0;
    while d < |draws| && d < 100
      invariant 0 <= d <= |draws| && d <= 100
      invariant forall e | 0 <= e < d :: HasId(keys, draws[e])
    {
      if !HasId(keys, draws[d]) { return Some(draws[d]); }
      d := d + 1;
    }
    id := None;
  }

  predicate HasName(active: seq<Key>, name: nat) { exists i :: 0 <= i < |active| && active[i].name == name }
  predicate HasFingerprint(active: seq<Key>, f: nat) { exists i :: 0 <= i < |active| && active[i].fingerprint == f }

  /** The row and the output as an addition leaves them in the session. */
  function Added(db: Database, key: Key): Database
    requires key.output in db.outputs
  {
    Database(db.outputs[key.output := db.outputs[key.output].(lines := Lines(Active(db.keys, key.output) + [key]))], db.keys + [key])
  }

  function RevokedIn(db: Database, i: nat): Database
    requires i < |db.keys| && db.keys[i].output in db.outputs
  {
    var o := db.keys[i].output;
    Database(db.outputs[o := db.outputs[o].(lines := Lines(Without(Active(db.keys, o), db.keys[i].id)))], Revoked(db.keys, i))
  }

  lemma AddedIsValid(db: Database, key: Key)
    requires Valid(db) && key.output in db.outputs && !key.revoked && |Active(db.keys, key.output)| < MAX_KEYS
    requires !HasId(db.keys, key.id)
    requires !HasName(Active(db.keys, key.output), key.name) && !HasFingerprint(Active(db.keys, key.output), key.fingerprint)
    ensures Valid(Added(db, key))
  {
    var keys := db.keys;
    forall i | 0 <= i < |keys| && keys[i].output == key.output && !keys[i].revoked
      ensures keys[i].name != key.name && keys[i].fingerprint != key.fingerprint
    {
      var active := Active(keys, key.output);
      assert keys[i] in active;
      var j :| 0 <= j < |active| && active[j] == keys[i];
    }
    assert Distinct(keys + [key]);
    forall o | o in db.outputs
      ensures |Active(keys + [key], o)| <= MAX_KEYS && ListsLines(Added(db, key).outputs[o].lines, Active(keys + [key], o))
    {
      ActiveAppend(keys, key, o);
    }
  }

  lemma RevokedIsValid(db: Database, i: nat)
    requires Valid(db) && i < |db.keys| && db.keys[i].output in db.outputs
    ensures Valid(RevokedIn(db, i))
  {
    assert Distinct(Revoked(db.keys, i));
    forall o | o in db.outputs
      ensures |Active(Revoked(db.keys, i), o)| <= MAX_KEYS && ListsLines(RevokedIn(db, i).outputs[o].lines, Active(Revoked(db.keys, i), o))
    {
      ActiveRevoke(db.keys, i, o);
      WithoutIsShorter(Active(db.keys, o), db.keys[i].id);
    }
  }

  // ----- The mutation -----

  /** Rows are never removed or altered, except that a key may become revoked; it stays so. */
  ghost predicate Grows(before: seq<Key>, after: seq<Key>) {
    && |before| <= |after|
    && forall i | 0 <= i < |before| :: after[i] == before[i] || after[i] == before[i].(revoked := true)
  }

  /** Everything but one output's lines is as it was. */
  ghost predicate OthersKept(before: Database, after: Database, output: nat) {
    && after.outputs.Keys == before.outputs.Keys && output in before.outputs
    && after.outputs == before.outputs[output := before.outputs[output].(lines := after.outputs[output].lines)]
  }

  predicate IsApp(db: Database, output: nat) { output in db.outputs && db.outputs[output].app }

  /** What the new key must look like for the call to get as far as writing it. */
  ghost predicate MayAdd(db: Database, w: World, r: Request, key: Key)
    requires r.Add?
  {
    && IsApp(db, r.output) && key.output == r.output && !key.revoked && !HasId(db.keys, key.id)
    && NameOk(Strip(r.name)) && key.name == w.fold(Strip(r.name))
    && !HasName(Active(db.keys, r.output), key.name) && |Active(db.keys, r.output)| < MAX_KEYS
    && !HasFingerprint(Active(db.keys, r.output), key.fingerprint)
    && ParsePublicKey(key.line, w.decode, w.digest) == Ok((key.line, key.fingerprint))
  }

  function Parse(w: World, text: string): Result<(string, nat)> { ParsePublicKey(text, w.decode, w.digest) }

  function KeyText(r: Request, f: Faults): Option<string>
    requires r.Add?
  {
    if r.publicKey.Some? then r.publicKey else f.generated
  }

  predicate Parses(w: World, r: Request, f: Faults)
    requires r.Add?
  {
    KeyText(r, f).Some? && Parse(w, KeyText(r, f).value).Ok?
  }

  predicate NameFree(db: Database, w: World, r: Request)
    requires r.Add?
  {
    NameOk(Strip(r.name)) && !HasName(Active(db.keys, r.output), w.fold(Strip(r.name)))
  }

  /** The key is the one in this text. */
  ghost predicate ComesFrom(w: World, key: Key, text: string) {
    Parse(w, text).Ok? && Parse(w, text).value == (key.line, key.fingerprint)
  }

  /** The checks before the key itself is looked at. */
  predicate HasRoom(db: Database, w: World, r: Request)
    requires r.Add?
  {
    IsApp(db, r.output) && NameFree(db, w, r) && |Active(db.keys, r.output)| < MAX_KEYS
  }

  /** The checks of an addition, in order, up to the new row. */
  method StageAdd(db: Database, w: World, r: Request, f: Faults) returns (reply: Reply, key: Option<Key>)
    requires r.Add?
    ensures reply.Done? <==> key.Some?
    ensures key.Some? ==> reply.id == key.value.id && MayAdd(db, w, r, key.value)
    ensures key.Some? && r.publicKey.Some? ==> ComesFrom(w, key.value, r.publicKey.value)
    ensures key.Some? && r.publicKey.None? ==> f.generated.Some? && ComesFrom(w, key.value, f.generated.value)
    ensures reply == NotFound <==> r.output !in db.outputs || !db.outputs[r.output].app
    ensures reply == BadName <==> IsApp(db, r.output) && BadlyNamed(Strip(r.name))
    ensures reply == NameTaken <==> IsApp(db, r.output) && NameOk(Strip(r.name))
                                    && HasName(Active(db.keys, r.output), w.fold(Strip(r.name)))
    ensures reply == TooMany <==> IsApp(db, r.output) && NameFree(db, w, r) && |Active(db.keys, r.output)| >= MAX_KEYS
    ensures reply == NoPair <==> HasRoom(db, w, r) && r.publicKey.None? && f.generated.None?
    ensures reply == BadKey <==> HasRoom(db, w, r) && KeyText(r, f).Some? && !Parse(w, KeyText(r, f).value).Ok?
    ensures reply == KeyTaken <==> HasRoom(db, w, r) && Parses(w, r, f)
                                   && HasFingerprint(Active(db.keys, r.output), Parse(w, KeyText(r, f).value).value.1)
    ensures reply == NoId <==> HasRoom(db, w, r) && Parses(w, r, f)
                               && !HasFingerprint(Active(db.keys, r.output), Parse(w, KeyText(r, f).value).value.1)
                               && forall d | 0 <= d < |f.draws| && d < 100 :: HasId(db.keys, f.draws[d])
    ensures reply != Interrupted
  {
    key := None;
    if !IsApp(db, r.output) { return NotFound, None; }
    var active := Active(db.keys, r.output);
    var name := Strip(r.name);
    NameOkIff(name);
    if !NameOk(name) { return BadName, None; }
    if HasName(active, w.fold(name)) { return NameTaken, None; }
    if |active| >= MAX_KEYS { return TooMany, None; }
    var text := KeyText(r, f);
    if text.None? { return NoPair, None; }
    var parsed := Parse(w, text.value);
    if !parsed.Ok? { return BadKey, None; }
    StoredLineIsStable(text.value, w.decode, w.digest);
    if HasFingerprint(active, parsed.value.1) { return KeyTaken, None; }
    var id := AllocateKeyId(db.keys, f.draws);
    if id.None? { return NoId, None; }
    key := Some(Key(id.value, r.output, w.fold(name), parsed.value.0, parsed.value.1, false));
    reply := Done(id.value);
  }

  /** The row of a revocation. */
  method FindKey(db: Database, output: nat, id: nat) returns (i: Option<nat>)
    ensures i.Some? ==> i.value < |db.keys| && db.keys[i.value].id == id && db.keys[i.value].output == output
    ensures i.None? <==> !exists j :: 0 <= j < |db.keys| && db.keys[j].id == id && db.keys[j].output == output
  {
    for j := 0 to |db.keys|
      invariant forall k | 0 <= k < j :: !(db.keys[k].id == id && db.keys[k].output == output)
    {
      if db.keys[j].id == id && db.keys[j].output == output { return Some(j); }
    }
    i := None;
  }

  /** The host is left with keys the database does not have, or without some it has: the host's
      own update was made but reported as failed, or the commit was refused and the way back
      failed as well. */
  predicate Diverges(f: Faults, enabled: bool) {
    && enabled && !f.flushRaises
    && (f.reconcile == RaisesAfter || (f.reconcile == Fine && f.commit == RaisesBefore && f.recovery == RaisesBefore))
  }

  predicate CommitReached(f: Faults, enabled: bool) { !f.flushRaises && (enabled ==> f.reconcile == Fine) }

  predicate Committed(db: Database, f: Faults, output: nat) {
    output in db.outputs && CommitReached(f, db.outputs[output].enabled) && f.commit == Fine
  }

  class KeyStore {
    var db: Database                       // what is committed
    var host: map<nat, seq<string>>        // the lines of each enabled app output

    constructor (db: Database)
      ensures this.db == db && host == HostOf(db)
    {
      this.db, host := db, HostOf(db);
    }

    /** Flush, host update, commit, and the handler around them. */
    method Apply(output: nat, work: Database, f: Faults) returns (ok: bool)
      requires OthersKept(db, work, output) && IsApp(db, output)
      modifies this
      ensures db == if CommitReached(f, work.outputs[output].enabled) && f.commit != RaisesBefore then work else old(db)
      ensures ok <==> CommitReached(f, work.outputs[output].enabled) && f.commit == Fine
      ensures old(host) == HostOf(old(db)) ==>
                (host == HostOf(db) <==> !Diverges(f, work.outputs[output].enabled) || HostOf(work) == HostOf(old(db)))
      ensures ok && work.outputs[output].enabled ==> host == HostOf(db)
    {
      ok := false;
      var applied := false;
      if f.flushRaises { return; }
      if work.outputs[output].enabled {
        if f.reconcile == RaisesBefore { return; }
        host := HostOf(work);
        if f.reconcile == RaisesAfter { return; }
        applied := true;
      } else {
        assert HostOf(work) == HostOf(db);
      }
      if f.commit != RaisesBefore { db := work; }
      if f.commit == Fine { return true; }
      if applied && f.recovery != RaisesBefore { host := HostOf(db); }
    }

    /** _mutate_key, with a name and perhaps a public key. */
    method AddKey(w: World, r: Request, f: Faults) returns (reply: Reply)
      requires r.Add? && Valid(db) && Parsed(db.keys, w)
      modifies this
      ensures db == old(db) || Moved(old(db), db, w, r.output)
      ensures reply.Done? ==> Changed(old(db), db, w, r, reply.id)
      ensures !reply.Done? && reply != Interrupted ==> db == old(db) && host == old(host)
      ensures reply.Done? ==> Committed(old(db), f, r.output)
      ensures reply == Interrupted ==> !Committed(old(db), f, r.output)
      ensures reply == NotFound <==> !IsApp(old(db), r.output)
      ensures Followed(old(host), old(db), host, db, f, r.output)
    {
      var key;
      reply, key := StageAdd(db, w, r, f);
      if key.None? { return; }
      AddedMoves(db, w, r, key.value);
      SameSwitches(db, Added(db, key.value), r.output);
      HostOfIs(host, db);
      var ok := Apply(r.output, Added(db, key.value), f);
      HostOfIs(host, db);
      if !ok { reply := Interrupted; }
    }

    /** _mutate_key, with the id of a key to revoke. */
    method RevokeKey(w: World, r: Request, f: Faults) returns (reply: Reply)
      requires r.Revoke? && Valid(db) && Parsed(db.keys, w)
      modifies this
      ensures db == old(db) || Moved(old(db), db, w, r.output)
      ensures reply.Done? ==> RevokedOne(old(db), db, r.output, r.id)
      ensures !reply.Done? && reply != Interrupted ==> db == old(db) && host == old(host)
      ensures reply.Done? ==> Committed(old(db), f, r.output)
      ensures reply == Interrupted ==> !Committed(old(db), f, r.output)
      ensures reply == NotFound <==> !IsApp(old(db), r.output) || !HasKey(old(db), r.output, r.id)
      ensures Followed(old(host), old(db), host, db, f, r.output)
    {
      if !IsApp(db, r.output) { return NotFound; }
      var i := FindKey(db, r.output, r.id);
      if i.None? { return NotFound; }
      RevokedMoves(db, w, i.value);
      SameSwitches(db, RevokedIn(db, i.value), r.output);
      HostOfIs(host, db);
      var ok := Apply(r.output, RevokedIn(db, i.value), f);
      HostOfIs(host, db);
      reply := if ok then Done(r.id) else Interrupted;
    }

    /** Any run of calls keeps the table valid, takes back no revocation, and leaves the host with
        the committed keys as long as no call diverges. */
    method Serve(w: World, calls: seq<(Request, Faults)>)
      requires Valid(db) && Parsed(db.keys, w) && LetsIn(host, db)
      modifies this
      ensures Valid(db) && Parsed(db.keys, w) && Grows(old(db).keys, db.keys)
      ensures (forall i | 0 <= i < |calls| :: !Diverges(calls[i].1, true)) ==> LetsIn(host, db)
    {
      for i := 0 to |calls|
        invariant Valid(db) && Parsed(db.keys, w) && Grows(old(db).keys, db.keys)
        invariant (forall j | 0 <= j < i :: !Diverges(calls[j].1, true)) ==> LetsIn(host, db)
      {
        ghost var before := db;
        var r, f := calls[i].0, calls[i].1;
        if r.Add? {
          var reply := AddKey(w, r, f);
        } else {
          var reply := RevokeKey(w, r, f);
        }
        GrowsOn(old(db).keys, before.keys, db.keys);
      }
    }
  }

  lemma GrowsOn(a: seq<Key>, b: seq<Key>, c: seq<Key>)
    requires Grows(a, b) && (b == c || Grows(b, c))
    ensures Grows(a, c)
  {
  }

  /** One step of the table. */
  ghost predicate Moved(before: Database, after: Database, w: World, output: nat) {
    Valid(after) && Parsed(after.keys, w) && Grows(before.keys, after.keys) && OthersKept(before, after, output)
  }

  /** The host follows the database, unless the call diverged. */
  ghost predicate Followed(host: map<nat, seq<string>>, before: Database, host': map<nat, seq<string>>, after: Database,
                           f: Faults, output: nat)
  {
    LetsIn(host, before) && !(output in before.outputs && Diverges(f, before.outputs[output].enabled)) ==> LetsIn(host', after)
  }

  ghost predicate IsRevoked(db: Database, id: nat) {
    forall i | 0 <= i < |db.keys| && db.keys[i].id == id :: db.keys[i].revoked
  }

  lemma SameSwitches(before: Database, after: Database, output: nat)
    requires OthersKept(before, after, output)
    ensures after.outputs[output].enabled == before.outputs[output].enabled
  {
  }

  lemma AddedMoves(db: Database, w: World, r: Request, key: Key)
    requires r.Add? && Valid(db) && Parsed(db.keys, w) && MayAdd(db, w, r, key)
    ensures Moved(db, Added(db, key), w, r.output)
  {
    AddedIsValid(db, key);
    assert Parsed(db.keys + [key], w);
  }

  lemma RevokedMoves(db: Database, w: World, i: nat)
    requires Valid(db) && Parsed(db.keys, w) && i < |db.keys| && db.keys[i].output in db.outputs
    ensures Moved(db, RevokedIn(db, i), w, db.keys[i].output)
    ensures IsRevoked(RevokedIn(db, i), db.keys[i].id)
  {
    RevokedIsValid(db, i);
    assert Parsed(Revoked(db.keys, i), w);
  }

  ghost predicate RevokedOne(before: Database, after: Database, output: nat, id: nat) {
    && IsRevoked(after, id)
    && exists i :: 0 <= i < |before.keys| && before.keys[i].id == id && before.keys[i].output == output
                   && output in before.outputs && after == RevokedIn(before, i)
  }

  ghost predicate HasKey(db: Database, output: nat, id: nat) {
    exists j :: 0 <= j < |db.keys| && db.keys[j].id == id && db.keys[j].output == output
  }

  ghost predicate Changed(before: Database, after: Database, w: World, r: Request, id: nat)
    requires r.Add?
  {
    exists key :: MayAdd(before, w, r, key) && key.id == id && after == Added(before, key)
  }
}
