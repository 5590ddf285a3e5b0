/**
 No row is lost at any crash point of the Activity move, and a rerun completes it.
 */
module ActivityMoveProofs {
  import opened Wrappers
  import opened ActivityMove

  ghost predicate From(a: map<Id, Attempt>, id: Id, row: Attempt) {
    id in a && a[id] == row
  }

  // Every attempt of the Activity table was there at the start or comes from the central one.
  ghost predicate Sourced(o: State, s: State)
    requires o.central.Some?
  {
    forall id :: id in s.attempts ==>
      From(o.attempts, id, s.attempts[id]) || From(o.central.value.attempts, id, s.attempts[id])
  }

  // An attempt goes only when a central one takes its slot.
  ghost predicate AttemptsKept(o: State, s: State)
    requires o.central.Some?
  {
    forall id :: id in o.attempts ==> id in s.attempts || Displaced(o.attempts[id], o.central.value.attempts)
  }

  // A log stays, and one the central table does not have keeps its content.
  ghost predicate LogsKept(o: State, s: State)
    requires o.central.Some?
  {
    forall id :: id in o.logs ==> id in s.logs && (id !in o.central.value.logs ==> s.logs[id] == o.logs[id])
  }

  ghost predicate Found(o: State, s: State)
    requires o.central.Some?
  {
    o.central.value.logs.Keys <= s.logs.Keys && o.central.value.attempts.Keys <= s.attempts.Keys
  }

  ghost predicate Safe(o: State, s: State)
    requires o.central.Some?
  {
    && s.names == o.names && LogsKept(o, s)
    && Sourced(o, s) && AttemptsKept(o, s) && (Unique(o.attempts) ==> Unique(s.attempts))
    && (s.central == o.central || (s.central == None && Found(o, s)))
  }

  ghost predicate Start(o: State) {
    o.central.Some? && Unique(o.central.value.attempts)
  }

  lemma ReplacedIsUnique(attempts: map<Id, Attempt>, rows: map<Id, Attempt>)
    requires Unique(attempts) && Unique(rows)
    ensures Unique(AttemptsReplaced(attempts, rows))
  {
  }

  lemma ReplaceIsSafe(o: State, s: State, lost: set<Id>)
    requires Start(o) && Safe(o, s) && s.central == o.central
    ensures var t := s.(attempts := AttemptsReplaced(s.attempts, o.central.value.attempts - lost));
      Sourced(o, t) && AttemptsKept(o, t) && (Unique(o.attempts) ==> Unique(t.attempts))
  {
    var c := o.central.value.attempts;
    if Unique(o.attempts) {
      ReplacedIsUnique(s.attempts, c - lost);
    }
    var t := s.(attempts := AttemptsReplaced(s.attempts, c - lost));
    forall id | id in o.attempts
      ensures id in t.attempts || Displaced(o.attempts[id], c)
    {
      if id in s.attempts && Displaced(s.attempts[id], c - lost) {
        var j :| j in c - lost && SameSlot(s.attempts[id], (c - lost)[j]);
        assert j in c && c[j] == (c - lost)[j];
        assert From(o.attempts, id, s.attempts[id]) || From(c, id, s.attempts[id]);
        if From(c, id, s.attempts[id]) {
          assert id == j;
        }
      }
    }
    forall id | id in t.attempts
      ensures From(o.attempts, id, t.attempts[id]) || From(c, id, t.attempts[id])
    {
      if id in c - lost {
        assert From(c, id, t.attempts[id]);
      } else {
        assert From(o.attempts, id, s.attempts[id]) || From(c, id, s.attempts[id]);
      }
    }
  }

  // What holds before the k-th statement of a boot.
  ghost predicate Ready(o: State, s: State, k: nat)
    requires o.central.Some?
  {
    && (1 <= k <= 3 ==> !s.enforced)
    && (5 <= k ==> o.central.value.logs.Keys <= s.logs.Keys)
    && (6 <= k ==> o.central.value.attempts.Keys <= s.attempts.Keys)
  }

  lemma StatementIsSafe(o: State, s: State, b: Boot, k: nat)
    requires Start(o) && Safe(o, s) && s.central == o.central && k < 7 && Ready(o, s, k)
    ensures var r := Exec(s, Program(b)[k]);
      r.Some? ==> Safe(o, r.value) && Ready(o, r.value, k + 1) && (k < 6 ==> r.value.central == o.central)
  {
    if k == 1 {
      assert Cascaded(s, o.central.value.logs.Keys - b.lostLogs) == s.attempts;
    } else if k == 2 {
      ReplaceIsSafe(o, s, b.lostAttempts);
    }
  }

  lemma {:induction false} RestIsSafe(o: State, s: State, b: Boot, k: nat, power: nat)
    requires Start(o) && Safe(o, s) && s.central == o.central && k <= 7 && Ready(o, s, k)
    ensures Safe(o, Go(s, Program(b)[k..], power))
    decreases 7 - k
  {
    if k < 7 && power > 0 {
      StatementIsSafe(o, s, b, k);
      assert Program(b)[k..][1..] == Program(b)[k + 1..];
      var r := Exec(s, Program(b)[k]);
      if r.Some? && k < 6 {
        RestIsSafe(o, r.value, b, k + 1, power - 1);
      }
    }
  }

  lemma BootIsSafe(o: State, s: State, b: Boot)
    requires Start(o) && Safe(o, s)
    ensures Safe(o, Booted(s, b))
  {
    if s.central.Some? {
      assert Program(b)[0..] == Program(b);
      RestIsSafe(o, s.(enforced := true), b, 0, b.power);
    }
  }

  lemma {:induction false} BootsAreSafe(o: State, s: State, bs: seq<Boot>)
    requires Start(o) && Safe(o, s)
    ensures Safe(o, Boots(s, bs))
    decreases |bs|
  {
    if bs != [] {
      BootIsSafe(o, s, bs[0]);
      BootsAreSafe(o, Booted(s, bs[0]), bs[1..]);
    }
  }

  /** Wherever boots crash and whatever a copy loses, the two central tables stand or
      fall together, they go only once every id was found in the copy, an original Activity
      log stays, as it was unless the central table has it too, and an original attempt goes
      only when a central one takes its slot. */
  lemma NoRowIsLost(o: State, bs: seq<Boot>)
    requires Start(o)
    ensures var s := Boots(o, bs);
      && (s.central == o.central || (s.central == None && Found(o, s)))
      && LogsKept(o, s)
      && (forall id :: id in o.attempts && !Displaced(o.attempts[id], o.central.value.attempts) ==> id in s.attempts)
  {
    assert Safe(o, o);
    BootsAreSafe(o, o, bs);
  }

  // Without losses the copies are exact.
  ghost predicate LogsExact(o: State, s: State)
    requires o.central.Some?
  {
    forall id :: id in o.central.value.logs ==> id in s.logs && s.logs[id] == Joined(o.central.value.logs[id], o.names)
  }

  ghost predicate AttemptsExact(o: State, s: State)
    requires o.central.Some?
  {
    forall id :: id in o.central.value.attempts ==> From(s.attempts, id, o.central.value.attempts[id])
  }

  ghost predicate Exact(o: State, s: State)
    requires o.central.Some?
  {
    LogsExact(o, s) && AttemptsExact(o, s)
  }

  predicate Lossless(b: Boot) {
    b.lostLogs == {} && b.lostAttempts == {}
  }

  // The central tables are there, or every row of theirs was carried over as it was.
  ghost predicate Carried(o: State, s: State)
    requires o.central.Some?
  {
    s.names == o.names && (s.central == o.central || (s.central == None && Exact(o, s)))
  }

  // What holds before the k-th statement of a boot that loses nothing.
  ghost predicate Copied(o: State, s: State, k: nat)
    requires o.central.Some?
  {
    && s.names == o.names && (1 <= k <= 3 ==> !s.enforced)
    && (2 <= k ==> LogsExact(o, s)) && (3 <= k ==> AttemptsExact(o, s))
  }

  lemma StatementCopies(o: State, s: State, b: Boot, k: nat)
    requires o.central.Some? && s.central == o.central && Lossless(b) && k < 7 && Copied(o, s, k)
    ensures var r := Exec(s, Program(b)[k]);
      r.Some? ==> Copied(o, r.value, k + 1) && (if k < 6 then r.value.central == o.central else r.value.central == None)
  {
    var c := o.central.value;
    assert c.logs - {} == c.logs && c.attempts - {} == c.attempts;
  }

  lemma {:induction false} RestCarries(o: State, s: State, b: Boot, k: nat, power: nat)
    requires o.central.Some? && s.central == o.central && Lossless(b) && k <= 7 && Copied(o, s, k)
    ensures Carried(o, Go(s, Program(b)[k..], power))
    decreases 7 - k
  {
    hide Exec;
    hide LogsExact;
    hide AttemptsExact;
    if k < 7 && power > 0 {
      StatementCopies(o, s, b, k);
      assert Program(b)[k..][1..] == Program(b)[k + 1..];
      var r := Exec(s, Program(b)[k]);
      if r.Some? && k < 6 {
        RestCarries(o, r.value, b, k + 1, power - 1);
      }
    }
  }

  /** Wherever boots crash, as long as their copies lose nothing, either the central tables
      stand untouched or every row of theirs is in the copy with its content. */
  lemma {:induction false} RowsAreCarried(o: State, s: State, bs: seq<Boot>)
    requires o.central.Some? && Carried(o, s) && forall b :: b in bs ==> Lossless(b)
    ensures Carried(o, Boots(s, bs))
    decreases |bs|
  {
    if bs != [] {
      if s.central.Some? {
        assert Program(bs[0])[0..] == Program(bs[0]);
        RestCarries(o, s.(enforced := true), bs[0], 0, bs[0].power);
      }
      RowsAreCarried(o, Booted(s, bs[0]), bs[1..]);
    }
  }

  /** After a move that lost nothing every central log is in the Activity table with its key
      and body and, for a name, that of its key, or the empty one if the key has none. */
  lemma LogsAreNamed(o: State, bs: seq<Boot>, id: Id)
    requires o.central.Some? && (forall b :: b in bs ==> Lossless(b)) && Boots(o, bs).central == None
    requires id in o.central.value.logs
    ensures var log, s := o.central.value.logs[id], Boots(o, bs);
      && id in s.logs && s.logs[id].key == log.key && s.logs[id].body == log.body
      && (log.key in o.names ==> s.logs[id].name == o.names[log.key])
      && (log.key !in o.names ==> s.logs[id].name == 0)
  {
    RowsAreCarried(o, o, bs);
  }

  /** Once the rows are carried over, an original Activity attempt is there if and only if no
      central one took its log and number, or it is one that the central table has too; and it
      is the central row then, its own otherwise. */
  lemma AttemptStaysIff(o: State, bs: seq<Boot>, id: Id)
    requires Start(o) && Unique(o.attempts) && Exact(o, Boots(o, bs)) && id in o.attempts
    ensures var s, c := Boots(o, bs), o.central.value.attempts;
      && (id in s.attempts <==>
            id in c || forall j :: j in c ==> c[j].log != o.attempts[id].log || c[j].number != o.attempts[id].number)
      && (id in s.attempts ==> s.attempts[id] == if id in c then c[id] else o.attempts[id])
  {
    assert Safe(o, o);
    BootsAreSafe(o, o, bs);
    var s, c := Boots(o, bs), o.central.value.attempts;
    if id in c {
      assert From(s.attempts, id, c[id]);
    } else if id in s.attempts {
      assert From(o.attempts, id, s.attempts[id]) || From(c, id, s.attempts[id]);
      forall j | j in c
        ensures !SameSlot(o.attempts[id], c[j])
      {
        assert From(s.attempts, j, c[j]);
      }
    }
  }

  lemma OneBoot(o: State, b: Boot)
    ensures Boots(o, [b]) == Booted(o, b)
  {
    hide Booted;
    assert [b][1..] == [];
    assert Boots(Booted(o, b), []) == Booted(o, b);
  }

  // Attempt 2 of the Activity table has the slot of the central attempt 1.
  const TWO_ATTEMPTS := State(Some(Central(map[], map[1 := Attempt(5, 1, 0)])), map[], map[], map[2 := Attempt(5, 1, 9)], true)

  lemma TwoAttempts()
    ensures Start(TWO_ATTEMPTS) && Unique(TWO_ATTEMPTS.attempts)
    ensures Displaced(TWO_ATTEMPTS.attempts[2], TWO_ATTEMPTS.central.value.attempts)
  {
    assert SameSlot(TWO_ATTEMPTS.attempts[2], TWO_ATTEMPTS.central.value.attempts[1]);
  }

  /** An attempt does go so: one boot displaces it. */
  lemma AttemptIsDisplaced()
    ensures Start(TWO_ATTEMPTS) && Unique(TWO_ATTEMPTS.attempts) && 2 in TWO_ATTEMPTS.attempts
    ensures var s := Boots(TWO_ATTEMPTS, [Boot({}, {}, 7)]); s.central == None && 2 !in s.attempts
  {
    hide Booted;
    hide Boots;
    hide Exact;
    hide Displaced;
    TwoAttempts();
    OneBoot(TWO_ATTEMPTS, Boot({}, {}, 7));
    WholeProgram(TWO_ATTEMPTS, Boot({}, {}, 7));
    AttemptStaysIff(TWO_ATTEMPTS, [Boot({}, {}, 7)], 2);
  }

  lemma CopiesAreExact(s: State)
    requires s.central.Some? && !s.enforced
    ensures Exec(s, CopyLogs({})).Some? && Exec(s, CopyLogs({})).value.central == s.central
    ensures var t := Exec(s, CopyLogs({})).value; Exec(t, CopyAttempts({})).Some?
    ensures var u := Exec(Exec(s, CopyLogs({})).value, CopyAttempts({})).value; u.central == s.central && Exact(s, u) && Found(s, u)
  {
    var c := s.central.value;
    assert c.logs - {} == c.logs && c.attempts - {} == c.attempts;
  }

  lemma {:induction false} WholeProgram(s: State, b: Boot)
    requires s.central.Some? && b.lostLogs == {} && b.lostAttempts == {} && 7 <= b.power
    ensures var t := Booted(s, b); t.central.None? && Exact(s, t)
  {
    var p := Program(b);
    var s1 := s.(enforced := false);
    CopiesAreExact(s1);
    var s2 := Exec(s1, p[1]).value;
    var s3 := Exec(s2, p[2]).value;
    var s4 := s3.(enforced := true);
    assert Exec(s4, VerifyLogs) == Some(s4) && Exec(s4, VerifyAttempts) == Some(s4);
    var s5 := s4.(central := None);
    assert p[1..][1..] == p[2..] && p[2..][1..] == p[3..] && p[3..][1..] == p[4..];
    assert p[4..][1..] == p[5..] && p[5..][1..] == p[6..] && p[6..][1..] == p[7..];
    assert Go(s4, p[6..], b.power - 6) == s5;
    assert Go(s4, p[5..], b.power - 5) == s5;
    assert Go(s4, p[4..], b.power - 4) == s5;
    assert Go(s3, p[3..], b.power - 3) == s5;
    assert Go(s2, p[2..], b.power - 2) == s5;
    assert Go(s1, p[1..], b.power - 1) == s5;
  }

  /** A boot that is not interrupted completes the move after any number that were, with
      every central row carried over exactly. */
  lemma RerunCompletes(o: State, bs: seq<Boot>, b: Boot)
    requires Start(o) && b.lostLogs == {} && b.lostAttempts == {} && 7 <= b.power
    ensures var s := Boots(o, bs); var t := Booted(s, b);
      t.central == None && Found(o, t) && (s.central == o.central ==> Exact(o, t))
  {
    assert Safe(o, o);
    BootsAreSafe(o, o, bs);
    var s := Boots(o, bs);
    if s.central.Some? {
      WholeProgram(s, b);
    }
    BootIsSafe(o, s, b);
  }

  /** A moved table stays moved. */
  lemma MovedIsQuiet(s: State, b: Boot)
    requires s.central.None?
    ensures Booted(s, b) == s.(enforced := true)
  {
  }

  /** Enforcing foreign keys during the copy would lose attempts: replacing a log row
      cascades to the attempts that were already in the Activity table. */
  lemma EnforcedCopyWouldCascade()
    ensures var s := State(Some(Central(map[1 := Log(0, 0)], map[])), map[], map[1 := ActivityLog(0, 0, 0)], map[7 := Attempt(1, 1, 0)], true);
      Exec(s, CopyLogs({})).Some? && 7 in s.attempts && 7 !in Exec(s, CopyLogs({})).value.attempts
  {
    var logs := map[1 := Log(0, 0)];
    assert 1 in logs - {};
  }
}
