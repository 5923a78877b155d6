/** The BoltDB-backed dial store (bolt/dial_service.go), with the replaceable
    clock of its client (bolt/client.go:16, bolt/client.go:25).

    The "Dials" bucket is modelled as a map from key to the record stored
    under it, already decoded. Each operation is one transaction: it either
    ends with a single Put that commits, or it returns early and the deferred
    Rollback leaves the bucket as it was. The calls into BoltDB that can fail
    (Begin, the marshal-and-Put step, Commit) report their outcome through a
    TxFaults value, so that every early return is part of the model. */
module BoltDialService {
  import opened Wrappers
  import opened Wtf
  import opened Errors

  /** What the storage calls of one transaction return; None means the call
      succeeded. `write` covers MarshalDial and Bucket.Put together. */
  datatype TxFaults = TxFaults(begin: Option<Err>, write: Option<Err>, commit: Option<Err>)

  /** The key invariant of the bucket: every record is stored under its own
      ID, and no record has an empty ID. */
  ghost predicate KeysMatchIDs(dials: map<DialID, Dial>) {
    forall k :: k in dials ==> dials[k].id == k && k != ""
  }

  class DialService {
    /** The "Dials" bucket. */
    var dials: map<DialID, Dial>
    /** Client.Now: `clock(k)` is what the k-th reading of the clock returns. */
    const clock: nat -> Time
    /** How many times the clock has been read. */
    var clockReads: nat

    ghost predicate Valid()
      reads this
    {
      KeysMatchIDs(dials)
    }

    /** A client over a freshly opened database whose bucket exists and is empty. */
    constructor (clock: nat -> Time)
      ensures Valid()
      ensures dials == map[] && this.clock == clock && clockReads == 0
    {
      dials := map[];
      this.clock := clock;
      clockReads := 0;
    }

    /** Dial returns the dial stored under `id`, or none, in a read-only
        transaction. `beginErr` is the outcome of starting it. */
    method Dial(id: DialID, beginErr: Option<Err>) returns (d: Option<Dial>, err: Option<Err>)
      ensures beginErr.Some? ==> d == None && err == beginErr
      ensures beginErr.None? ==> err == None
      ensures beginErr.None? ==> (d.Some? <==> id in dials)
      ensures beginErr.None? && d.Some? ==> d.value == dials[id]
      ensures Valid() && d.Some? ==> d.value.id == id
    {
      if beginErr.Some? {
        return None, beginErr;
      }
      if id !in dials {
        return None, None;
      }
      return Some(dials[id]), None;
    }

    /** CreateDial stores the caller's dial under its ID, stamping it with
        the current time; `d` is the caller's `*wtf.Dial`. */
    method CreateDial(d: DialCell?, faults: TxFaults) returns (err: Option<Err>)
      requires Valid()
      modifies this`dials, this`clockReads, d
      ensures Valid()
      // Validation, in this order, before any transaction is started.
      ensures d == null ==> err == Some(ErrDialRequired) && unchanged(this)
      ensures d != null && old(d.value).id == "" ==>
        err == Some(ErrDialIDRequired) && unchanged(this, d)
      ensures d != null && old(d.value).id != "" && faults.begin.Some? ==>
        err == faults.begin && unchanged(this, d)
      // An existing record is never overwritten; the clock is not read and
      // the caller's struct keeps its ModTime.
      ensures d != null && old(d.value).id != "" && faults.begin.None? && old(d.value).id in old(dials) ==>
        err == Some(ErrDialExists) && unchanged(this, d)
      // Otherwise the clock is read once and its reading is written into the
      // caller's struct, whatever the storage calls do afterwards.
      ensures d != null && old(d.value).id != "" && faults.begin.None? && old(d.value).id !in old(dials) ==>
        && d.value == old(d.value).(modTime := clock(old(clockReads)))
        && clockReads == old(clockReads) + 1
        && err == (if faults.write.Some? then faults.write else faults.commit)
        && dials == (if err.None? then old(dials)[d.value.id := d.value] else old(dials))
    {
      if d == null {
        return Some(ErrDialRequired);
      } else if d.value.id == "" {
        return Some(ErrDialIDRequired);
      }

      if faults.begin.Some? {
        return faults.begin;
      }

      if d.value.id in dials {
        return Some(ErrDialExists);
      }

      d.value := d.value.(modTime := clock(clockReads));
      clockReads := clockReads + 1;

      if faults.write.Some? {
        return faults.write;
      }
      if faults.commit.Some? {
        return faults.commit;
      }
      dials := dials[d.value.id := d.value];
      return None;
    }

    /** SetLevel updates the level of the dial stored under `id`, provided the
        caller presents that dial's token. */
    method SetLevel(id: DialID, token: string, level: Level, faults: TxFaults) returns (err: Option<Err>)
      requires Valid()
      modifies this`dials, this`clockReads
      ensures Valid()
      ensures faults.begin.Some? ==> err == faults.begin && unchanged(this)
      ensures faults.begin.None? && id !in old(dials) ==>
        err == Some(ErrDialNotFound) && unchanged(this)
      // The token is checked before anything is written or the clock is read.
      ensures faults.begin.None? && id in old(dials) && old(dials)[id].token != token ==>
        err == Some(ErrUnauthorized) && unchanged(this)
      // On a match only Level and ModTime of that one record change.
      ensures faults.begin.None? && id in old(dials) && old(dials)[id].token == token ==>
        && clockReads == old(clockReads) + 1
        && err == (if faults.write.Some? then faults.write else faults.commit)
        && dials == (if err.None?
                     then old(dials)[id := old(dials)[id].(level := level, modTime := clock(old(clockReads)))]
                     else old(dials))
    {
      if faults.begin.Some? {
        return faults.begin;
      }

      if id !in dials {
        return Some(ErrDialNotFound);
      }
      var d := dials[id];

      if d.token != token {
        return Some(ErrUnauthorized);
      }

      d := d.(level := level, modTime := clock(clockReads));
      clockReads := clockReads + 1;

      if faults.write.Some? {
        return faults.write;
      }
      if faults.commit.Some? {
        return faults.commit;
      }
      // The record is written back under its own ID, which the invariant
      // makes the key it was read from.
      dials := dials[d.id := d];
      return None;
    }
  }

  const NoFaults := TxFaults(None, None, None)

  /** Two dials created in one store and then updated separately keep their
      own levels (bolt/dial_service_test.go:57-76), and a wrong token leaves
      the level as it was. */
  method TwoDialsAreIndependent(clock: nat -> Time, a: DialID, b: DialID, token: string, l1: Level, l2: Level, l3: Level, l4: Level)
    returns (levelA: Level, levelB: Level, wrongToken: Option<Err>, duplicate: Option<Err>)
    requires a != "" && b != "" && a != b
    ensures levelA == l3 && levelB == l4
    ensures wrongToken == Some(ErrUnauthorized) && duplicate == Some(ErrDialExists)
  {
    var s := new DialService(clock);
    var da := new DialCell(Dial(a, token, "", l1, ZeroTime));
    var db := new DialCell(Dial(b, token, "", l2, ZeroTime));
    var err := s.CreateDial(da, NoFaults);
    assert err == None;
    err := s.CreateDial(db, NoFaults);
    assert err == None;

    err := s.SetLevel(a, token, l3, NoFaults);
    assert err == None;
    wrongToken := s.SetLevel(b, token + "x", l1, NoFaults);
    err := s.SetLevel(b, token, l4, NoFaults);
    assert err == None;

    // A second create under an existing ID is refused and changes nothing.
    var again := new DialCell(Dial(a, "other", "", l2, ZeroTime));
    duplicate := s.CreateDial(again, NoFaults);
    assert again.value.modTime == ZeroTime;

    var got, e := s.Dial(a, None);
    assert got.Some? && got.value.token == token;
    levelA := got.value.level;
    got, e := s.Dial(b, None);
    levelB := got.value.level;
  }
}
