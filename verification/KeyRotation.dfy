/**
 rotateMasterKey (cmd/tiller-router/main.go): key files and the database are separate
 persistence domains, so the order of the writes is what keeps every secret readable.
 */
module KeyRotation {
  import opened Wrappers

  type Id = nat
  type Key = nat
  type Text = nat

  // A stored secret: sealed under a key, or legacy plaintext.
  datatype Secret = Plain(text: Text) | Sealed(key: Key, text: Text)

  // master is master.key, previous its sidecar. A configured key (environment or file)
  // takes precedence over master.key.
  datatype Host = Host(master: Option<Key>, previous: Option<Key>, configured: Option<Key>, secrets: map<Id, Secret>)

  // An atomic file write that reports an error may still have replaced the file: the
  // rename precedes the directory sync.
  datatype Outcome = Written | FailedBefore | FailedAfter

  // What goes wrong in one run. power: the steps that happen before the process dies.
  datatype Faults = Faults(rereadFails: bool, sidecar: Outcome, write: Outcome, rotate: bool, restore: Outcome, power: nat)

  predicate Opens(key: Option<Key>, secrets: map<Id, Secret>) {
    forall id :: id in secrets && secrets[id].Sealed? ==> key == Some(secrets[id].key)
  }

  predicate HasEncrypted(secrets: map<Id, Secret>) {
    exists id :: id in secrets && secrets[id].Sealed?
  }

  // One of the two key files opens every stored secret.
  predicate Recoverable(h: Host) {
    (h.master.Some? && Opens(h.master, h.secrets)) || (h.previous.Some? && Opens(h.previous, h.secrets))
  }

  function Active(h: Host): Option<Key> {
    if h.configured.Some? then h.configured else h.master
  }

  function Resealed(secrets: map<Id, Secret>, key: Key): map<Id, Secret> {
    map id | id in secrets :: Sealed(key, secrets[id].text)
  }

  function After(file: Option<Key>, key: Key, outcome: Outcome): Option<Key> {
    if outcome == FailedBefore then file else Some(key)
  }

  // RotateSecrets: one transaction; a secret the old key cannot open aborts it.
  predicate Rotates(h: Host, oldKey: Key, fails: bool) {
    Opens(Some(oldKey), h.secrets) && !fails
  }

  // The database rotation and, when it fails, the restore.
  function Rotated(h: Host, oldKey: Key, newKey: Key, hadPrevious: bool, writes: bool, f: Faults, power: nat): Host {
    if power == 0 then h
    else if Rotates(h, oldKey, f.rotate) then h.(secrets := Resealed(h.secrets, newKey))
    else if power == 1 || !writes then h
    else if hadPrevious then h.(master := After(h.master, oldKey, f.restore))
    else h.(master := None)
  }

  // Every crash and error point of one rotation: the state the host is left in.
  function Rotation(h: Host, newKey: Key, f: Faults): Host {
    if !HasEncrypted(h.secrets) || Active(h).None? then h
    else
      var oldKey := Active(h).value;
      if h.configured.Some? then Rotated(h, oldKey, newKey, false, false, f, f.power)
      else if f.rereadFails then
        if f.power == 0 then h
        else
          var written := h.(master := After(h.master, newKey, f.write));
          if f.write != Written then written else Rotated(written, oldKey, newKey, false, true, f, f.power - 1)
      else if f.power == 0 then h
      else
        var saved := h.(previous := After(h.previous, oldKey, f.sidecar));
        if f.sidecar != Written || f.power == 1 then saved
        else
          var written := saved.(master := After(saved.master, newKey, f.write));
          if f.write != Written then written else Rotated(written, oldKey, newKey, true, true, f, f.power - 2)
  }

  /******* Properties *******/

  // The rotation works on the data-directory key file, and reads it twice.
  predicate OnFile(h: Host) {
    h.configured.None? && h.master.Some?
  }

  predicate SidecarOpens(h: Host) {
    h.previous.Some? && Opens(h.previous, h.secrets)
  }

  // What one run needs: if its second read fails it writes no sidecar, and an older one
  // must open every secret.
  predicate Prepared(h: Host, f: Faults) {
    Opens(h.master, h.secrets) && (f.rereadFails ==> SidecarOpens(h))
  }

  /** From a state in which master.key opens every secret, every crash and every error
      point leaves one of master.key and master.key.previous opening every secret; where
      the second read of master.key can fail, the sidecar must open them beforehand. */
  lemma RotationIsRecoverable(h: Host, newKey: Key, f: Faults)
    requires OnFile(h) && Prepared(h, f)
    ensures Recoverable(Rotation(h, newKey, f))
  {
    var t := Rotation(h, newKey, f);
    assert t.secrets == h.secrets || t.secrets == Resealed(h.secrets, newKey);
  }

  /** And from no other state: a master.key that does not open every secret is about to
      displace the sidecar that might. */
  lemma RecoverableIff(h: Host, newKey: Key)
    requires OnFile(h) && HasEncrypted(h.secrets)
    ensures (forall f: Faults :: !f.rereadFails ==> Recoverable(Rotation(h, newKey, f))) <==> Opens(h.master, h.secrets)
  {
    if Opens(h.master, h.secrets) {
      forall f: Faults | !f.rereadFails
        ensures Recoverable(Rotation(h, newKey, f))
      {
        RotationIsRecoverable(h, newKey, f);
      }
    } else {
      MisfitLosesTheKey(h, newKey);
    }
  }

  lemma MisfitLosesTheKey(h: Host, newKey: Key)
    requires OnFile(h) && HasEncrypted(h.secrets) && !Opens(h.master, h.secrets)
    ensures !Recoverable(Rotation(h, newKey, Faults(false, Written, Written, false, Written, 1)))
  {
    assert Rotation(h, newKey, Faults(false, Written, Written, false, Written, 1)) == h.(previous := h.master);
  }

  /** Over all faults, a failing second read included, a rotation is recoverable if and only
      if both key files open every secret at its start. */
  lemma AlwaysRecoverableIff(h: Host, newKey: Key)
    requires OnFile(h) && HasEncrypted(h.secrets)
    ensures (forall f: Faults :: Recoverable(Rotation(h, newKey, f))) <==> Opens(h.master, h.secrets) && SidecarOpens(h)
  {
    if Opens(h.master, h.secrets) && SidecarOpens(h) {
      forall f: Faults
        ensures Recoverable(Rotation(h, newKey, f))
      {
        RotationIsRecoverable(h, newKey, f);
      }
    } else if !Opens(h.master, h.secrets) {
      MisfitLosesTheKey(h, newKey);
    } else {
      // The overwritten key file is removed again when the database rotation fails.
      var f := Faults(true, Written, Written, true, Written, 3);
      assert Rotation(h, newKey, f) == h.(master := None);
      assert !Recoverable(Rotation(h, newKey, f));
    }
  }

  /** A run that meets no fault ends with the new key in master.key, the old one beside it,
      and every secret sealed under the new key with its plaintext unchanged. */
  lemma WholeRotation(h: Host, newKey: Key, f: Faults, id: Id)
    requires OnFile(h) && HasEncrypted(h.secrets) && Opens(h.master, h.secrets)
    requires f == Faults(false, Written, Written, false, Written, f.power) && f.power >= 3 && id in h.secrets
    ensures var t := Rotation(h, newKey, f);
      && t.master == Some(newKey) && t.previous == h.master
      && t.secrets.Keys == h.secrets.Keys && t.secrets[id] == Sealed(newKey, h.secrets[id].text)
  {
  }

  /** No crash or error point changes a plaintext. */
  lemma PlaintextsStay(h: Host, newKey: Key, f: Faults, id: Id)
    requires id in h.secrets
    ensures id in Rotation(h, newKey, f).secrets && Rotation(h, newKey, f).secrets[id].text == h.secrets[id].text
  {
  }

  /** With a configured key the key files are left alone. */
  lemma ConfiguredKeyLeavesFiles(h: Host, newKey: Key, f: Faults)
    requires h.configured.Some?
    ensures Rotation(h, newKey, f).master == h.master && Rotation(h, newKey, f).previous == h.previous
  {
  }

  // Every secret is sealed under the key, its text as before.
  ghost predicate AllUnder(before: map<Id, Secret>, after: map<Id, Secret>, key: Key) {
    after.Keys == before.Keys && forall id :: id in after ==> after[id] == Sealed(key, before[id].text)
  }

  /** The secrets move together: after any crash or error point either none has changed, or
      all are under the new key, and then the active key opened each of them. */
  lemma SecretsMoveTogether(h: Host, newKey: Key, f: Faults)
    ensures var t := Rotation(h, newKey, f);
      t.secrets == h.secrets || (AllUnder(h.secrets, t.secrets, newKey) && HasEncrypted(h.secrets) && Opens(Active(h), h.secrets))
  {
  }

  /** With a configured key the secrets move as soon as the one step of the database is taken
      and succeeds, which it can where that key opens them all. */
  lemma ConfiguredKeyRotates(h: Host, newKey: Key, f: Faults)
    requires h.configured.Some? && HasEncrypted(h.secrets)
    ensures var t := Rotation(h, newKey, f);
      if f.power > 0 && !f.rotate && Opens(h.configured, h.secrets) then AllUnder(h.secrets, t.secrets, newKey) else t == h
  {
  }

  /** Where the database refuses to rotate, the key the secrets are under comes back to
      master.key, a copy of it stays beside it, and no secret changes. */
  lemma RefusalRestoresTheKey(h: Host, newKey: Key, f: Faults)
    requires OnFile(h) && HasEncrypted(h.secrets) && (f.rotate || !Opens(h.master, h.secrets))
    requires !f.rereadFails && f.sidecar == Written && f.write == Written && f.restore == Written && f.power >= 4
    ensures Rotation(h, newKey, f) == Host(h.master, h.master, h.configured, h.secrets)
  {
  }

  /** A write that fails before it replaces its file leaves that file: a sidecar write ends the
      run there and then, a write of master.key with the sidecar in place, and a failed restore
      with the new key in master.key. */
  lemma FailedWritesLeaveFiles(h: Host, newKey: Key, f: Faults)
    requires OnFile(h) && HasEncrypted(h.secrets) && !f.rereadFails && f.power >= 4
    ensures f.sidecar == FailedBefore ==> Rotation(h, newKey, f) == h
    ensures f.sidecar == Written && f.write == FailedBefore ==>
      Rotation(h, newKey, f) == Host(h.master, h.master, h.configured, h.secrets)
    ensures f.sidecar == f.write == Written && (f.rotate || !Opens(h.master, h.secrets)) && f.restore == FailedBefore ==>
      Rotation(h, newKey, f) == Host(Some(newKey), h.master, h.configured, h.secrets)
  {
  }

  /** Without encrypted secrets, or without a key, nothing is touched. */
  lemma NothingToRotate(h: Host, newKey: Key, f: Faults)
    requires (forall id :: id in h.secrets ==> h.secrets[id].Plain?) || (h.configured.None? && h.master.None?)
    ensures Rotation(h, newKey, f) == h
  {
  }

  // The operator copies the sidecar over master.key.
  function Recovered(h: Host): Host {
    h.(master := h.previous)
  }

  /** After recovering from an interrupted rotation, rotating again is safe whatever fails,
      since both files then hold the key; after a completed one, short of a failing second
      read. */
  lemma RecoveryRestores(h: Host, newKey: Key, f: Faults, again: Key, g: Faults)
    requires OnFile(h) && Prepared(h, f)
    ensures var t := Rotation(h, newKey, f);
      var u := if Opens(t.master, t.secrets) then t else Recovered(t);
      && Opens(u.master, u.secrets) && (!Opens(t.master, t.secrets) ==> SidecarOpens(u))
      && (!g.rereadFails || SidecarOpens(u) ==> Recoverable(Rotation(u, again, g)))
  {
    var t := Rotation(h, newKey, f);
    RotationIsRecoverable(h, newKey, f);
    var u := if Opens(t.master, t.secrets) then t else Recovered(t);
    if Prepared(u, g) && OnFile(u) {
      RotationIsRecoverable(u, again, g);
    } else if u.master.None? && HasEncrypted(u.secrets) {
      assert false;
    }
  }

  /** Rotating again without recovering loses the only key: the interrupted first run left
      master.key with a key that opens nothing, and the second saves that over the sidecar. */
  lemma SecondRotationLosesTheKey()
    ensures var h := Host(Some(1), None, None, map[0 := Sealed(1, 7)]);
      var interrupted := Rotation(h, 2, Faults(false, Written, Written, false, Written, 2));
      var again := Rotation(interrupted, 3, Faults(false, Written, Written, false, Written, 9));
      Recoverable(interrupted) && !Recoverable(again)
  {
    var h := Host(Some(1), None, None, map[0 := Sealed(1, 7)]);
    assert 0 in h.secrets && HasEncrypted(h.secrets);
    var interrupted := Rotation(h, 2, Faults(false, Written, Written, false, Written, 2));
    assert interrupted == Host(Some(2), Some(1), None, h.secrets);
    var again := Rotation(interrupted, 3, Faults(false, Written, Written, false, Written, 9));
    assert !Opens(Some(2), h.secrets);
    assert again == Host(Some(2), Some(2), None, h.secrets);
  }

  /** If the second read of master.key fails, no sidecar is written, and a crash after the
      overwrite loses the key. */
  lemma FailedRereadLosesTheKey()
    ensures var h := Host(Some(1), None, None, map[0 := Sealed(1, 7)]);
      Opens(h.master, h.secrets) && !Recoverable(Rotation(h, 2, Faults(true, Written, Written, false, Written, 1)))
  {
    var h := Host(Some(1), None, None, map[0 := Sealed(1, 7)]);
    assert 0 in h.secrets && HasEncrypted(h.secrets);
    assert Rotation(h, 2, Faults(true, Written, Written, false, Written, 1)) == h.(master := Some(2));
    assert !Opens(Some(2), h.secrets);
  }

  /******* The command *******/

  datatype Exit = Finished(rotated: nat) | NothingToRotate | NoKey | SidecarError | WriteError | RotateError | Died

  class Machine {
    var master: Option<Key>
    var previous: Option<Key>
    const configured: Option<Key>
    var secrets: map<Id, Secret>
    var power: nat

    ghost function View(): Host
      reads this
    {
      Host(master, previous, configured, secrets)
    }

    constructor (h: Host, power: nat)
      ensures View() == h && this.power == power
    {
      master, previous, configured, secrets, this.power := h.master, h.previous, h.configured, h.secrets, power;
    }

    method Step() returns (alive: bool)
      modifies this`power
      ensures alive == (old(power) > 0) && power == if alive then old(power) - 1 else 0
    {
      alive := power > 0;
      if alive {
        power := power - 1;
      }
    }

    /** RotateSecrets: reads every secret with the old key before writing any. */
    method RotateSecrets(oldKey: Key, newKey: Key, fails: bool) returns (rotated: Option<nat>)
      modifies this`secrets
      ensures rotated == if Rotates(old(View()), oldKey, fails) then Some(|old(secrets)|) else None
      ensures secrets == if rotated.Some? then Resealed(old(secrets), newKey) else old(secrets)
    {
      var todo := secrets.Keys;
      var sealed: map<Id, Secret> := map[];
      while todo != {}
        invariant todo <= secrets.Keys
        invariant forall id :: id in secrets && id !in todo && secrets[id].Sealed? ==> secrets[id].key == oldKey
        invariant sealed == map id | id in secrets && id !in todo :: Sealed(newKey, secrets[id].text)
        decreases todo
      {
        var id :| id in todo;
        todo := todo - {id};
        if secrets[id].Sealed? && secrets[id].key != oldKey {
          return None;
        }
        sealed := sealed[id := Sealed(newKey, secrets[id].text)];
      }
      if fails {
        return None;
      }
      assert sealed == Resealed(secrets, newKey);
      rotated := Some(|secrets|);
      secrets := sealed;
    }

    method RotateAndRestore(oldKey: Key, newKey: Key, hadPrevious: bool, writes: bool, f: Faults) returns (exit: Exit)
      modifies this
      ensures View() == Rotated(old(View()), oldKey, newKey, hadPrevious, writes, f, old(power))
      ensures exit.Finished? ==> Rotates(old(View()), oldKey, f.rotate)
    {
      var alive := Step();
      if !alive { return Died; }
      var rotated := RotateSecrets(oldKey, newKey, f.rotate);
      if rotated.Some? {
        return Finished(rotated.value);
      }
      if writes {
        alive := Step();
        if !alive { return Died; }
        if hadPrevious {
          master := After(master, oldKey, f.restore);
        } else {
          master := None;
        }
      }
      exit := RotateError;
    }

    /** rotateMasterKey, dying when its power runs out. */
    method Rotate(newKey: Key, f: Faults) returns (exit: Exit)
      requires f.power == power
      modifies this
      ensures View() == Rotation(old(View()), newKey, f)
      ensures exit.Finished? ==> HasEncrypted(old(secrets)) && Opens(Active(old(View())), old(secrets))
    {
      if !HasEncrypted(secrets) { return NothingToRotate; }
      var oldKey: Key;
      if configured.Some? {
        oldKey := configured.value;
        exit := RotateAndRestore(oldKey, newKey, false, false, f);
        return;
      }
      if master.None? { return NoKey; }
      oldKey := master.value;
      var hadPrevious := !f.rereadFails;
      if hadPrevious {
        var alive := Step();
        if !alive { return Died; }
        previous := After(previous, oldKey, f.sidecar);
        if f.sidecar != Written { return SidecarError; }
      }
      var alive := Step();
      if !alive { return Died; }
      master := After(master, newKey, f.write);
      if f.write != Written { return WriteError; }
      exit := RotateAndRestore(oldKey, newKey, hadPrevious, true, f);
    }
  }
}
