/** The validator-registration pipeline: the timestamp gate of registerValidator, the
    deduplicating insert of the database, the Redis timestamp and the housekeeper's sync. */
module Registrations {
  import opened RelayTypes

  datatype Prefs = Prefs(feeRecipient: Hash, gasLimit: nat)
  datatype Reg = Reg(pubkey: Pubkey, timestamp: nat, prefs: Prefs, signature: string)

  // ----- the database table, in insertion order -----

  // Row of the pubkey with the greatest timestamp, the first such row on a tie.
  function Latest(rows: seq<Reg>, pk: Pubkey): (r: Option<Reg>)
    ensures r.Some? ==> r.value in rows && r.value.pubkey == pk
    ensures r.Some? ==> forall x :: x in rows && x.pubkey == pk ==> x.timestamp <= r.value.timestamp
    ensures r.None? ==> forall x :: x in rows ==> x.pubkey != pk
  {
    if rows == [] then None
    else
      var last, before := rows[|rows| - 1], Latest(rows[..|rows| - 1], pk);
      assert rows == rows[..|rows| - 1] + [last];
      if last.pubkey == pk && (before.None? || last.timestamp > before.value.timestamp) then Some(last) else before
  }

  // The insert is skipped when the newest row is as new, or has the same preferences.
  predicate Skips(rows: seq<Reg>, x: Reg) {
    var l := Latest(rows, x.pubkey);
    l.Some? && (x.timestamp <= l.value.timestamp || x.prefs == l.value.prefs)
  }

  function SaveRow(rows: seq<Reg>, x: Reg): seq<Reg> {
    if Skips(rows, x) then rows else rows + [x]
  }

  // ----- Redis -----

  function KnownTimestamp(times: map<Pubkey, nat>, pk: Pubkey): nat {
    if pk in times then times[pk] else 0
  }

  function SetIfNewer(times: map<Pubkey, nat>, pk: Pubkey, timestamp: nat): map<Pubkey, nat> {
    if KnownTimestamp(times, pk) >= timestamp then times else times[pk := timestamp]
  }

  // ----- the services -----

  datatype Stores = Stores(rows: seq<Reg>, times: map<Pubkey, nat>)

  predicate Gated(s: Stores, x: Reg) { KnownTimestamp(s.times, x.pubkey) >= x.timestamp }

  function Save(s: Stores, x: Reg): Stores {
    Stores(SaveRow(s.rows, x), SetIfNewer(s.times, x.pubkey, x.timestamp))
  }

  function GateAndSave(s: Stores, x: Reg): Stores {
    if Gated(s, x) then s else Save(s, x)
  }

  class RegistrationService {
    var rows: seq<Reg>
    var times: map<Pubkey, nat>

    function State(): Stores
      reads this
    {
      Stores(rows, times)
    }

    method SaveValidatorRegistrationRow(x: Reg)
      modifies this`rows
      ensures rows == SaveRow(old(rows), x)
      ensures
        var newest := Latest(old(rows), x.pubkey);
        rows == if newest.Some? && (x.timestamp <= newest.value.timestamp || x.prefs == newest.value.prefs)
                then old(rows) else old(rows) + [x]
    {
      var latest := Latest(rows, x.pubkey);
      if latest.Some? {
        if x.timestamp <= latest.value.timestamp || x.prefs == latest.value.prefs {
          return;
        }
      }
      rows := rows + [x];
    }

    method SetValidatorRegistrationTimestampIfNewer(pk: Pubkey, timestamp: nat)
      modifies this`times
      ensures times == SetIfNewer(old(times), pk, timestamp)
      ensures times == if timestamp == 0 || (pk in old(times) && old(times)[pk] >= timestamp) then old(times) else old(times)[pk := timestamp]
    {
      var known := if pk in times then times[pk] else 0;
      if known >= timestamp {
        return;
      }
      times := times[pk := timestamp];
    }

    // Database first, then Redis; `crash` stops between the two.
    method SaveValidatorRegistration(x: Reg, crash: bool)
      modifies this
      ensures rows == SaveRow(old(rows), x)
      ensures times == if crash then old(times) else SetIfNewer(old(times), x.pubkey, x.timestamp)
    {
      SaveValidatorRegistrationRow(x);
      if crash {
        return;
      }
      SetValidatorRegistrationTimestampIfNewer(x.pubkey, x.timestamp);
    }

    // One registration of a registerValidator call, processed to the end.
    method RegisterValidator(x: Reg) returns (isNew: bool)
      modifies this
      ensures State() == GateAndSave(old(State()), x)
      ensures isNew <==> x.timestamp > if x.pubkey in old(times) then old(times)[x.pubkey] else 0
      ensures !isNew ==> rows == old(rows) && times == old(times)
      ensures isNew ==> times == old(times)[x.pubkey := x.timestamp]
    {
      var prev := if x.pubkey in times then times[x.pubkey] else 0;
      if prev >= x.timestamp {
        return false;
      }
      SaveValidatorRegistration(x, false);
      return true;
    }

    // The housekeeper's start-up sync: the newest row of every pubkey, in any order.
    method UpdateValidatorRegistrationsInRedis()
      modifies this`times
      ensures Synced(Stores(rows, old(times)), times)
      ensures forall pk :: IsMaximum(KnownTimestamp(times, pk), KnownTimestamp(old(times), pk), Latest(rows, pk))
    {
      var pks := set i | 0 <= i < |rows| :: rows[i].pubkey;
      var todo := pks;
      while todo != {}
        invariant todo <= pks && rows == old(rows)
        invariant forall pk :: pk in todo || pk !in pks ==> (pk in times <==> pk in old(times)) && (pk in times ==> times[pk] == old(times)[pk])
        invariant forall pk :: pk in pks - todo ==> KnownTimestamp(times, pk) == SyncedTimestamp(Stores(rows, old(times)), pk)
        decreases |todo|
      {
        var pk :| pk in todo;
        todo := todo - {pk};
        var latest := Latest(rows, pk);
        assert exists x :: x in rows && x.pubkey == pk;
        SetValidatorRegistrationTimestampIfNewer(pk, latest.value.timestamp);
      }
      assert forall pk :: pk !in pks ==> Latest(rows, pk).None?;
    }
  }

  // The known timestamp or the newest row's, whichever is greater.
  ghost predicate IsMaximum(timestamp: nat, known: nat, newest: Option<Reg>) {
    && timestamp >= known && (newest.Some? ==> timestamp >= newest.value.timestamp)
    && (timestamp == known || (newest.Some? && timestamp == newest.value.timestamp))
  }

  function SyncedTimestamp(s: Stores, pk: Pubkey): nat {
    match Latest(s.rows, pk)
    case None => KnownTimestamp(s.times, pk)
    case Some(l) => if KnownTimestamp(s.times, pk) >= l.timestamp then KnownTimestamp(s.times, pk) else l.timestamp
  }

  ghost predicate Synced(s: Stores, times: map<Pubkey, nat>) {
    forall pk :: KnownTimestamp(times, pk) == SyncedTimestamp(s, pk)
  }

  // ----- sequential runs -----

  datatype Event =
    | Register(x: Reg)             // gate, then database, then Redis
    | Crash(x: Reg)                // stopped after the database write
    | SaveUngated(x: Reg)          // both writes, without the gate
    | Sync                         // housekeeper restart

  ghost predicate Next(s: Stores, e: Event, s': Stores) {
    match e
    case Register(x) => s' == GateAndSave(s, x)
    case Crash(x) => s' == if Gated(s, x) then s else Stores(SaveRow(s.rows, x), s.times)
    case SaveUngated(x) => s' == Save(s, x)
    case Sync => s'.rows == s.rows && Synced(s, s'.times)
  }

  // ss[i] is the state before event i.
  ghost predicate IsRun(ss: seq<Stores>, es: seq<Event>) {
    && |ss| == |es| + 1
    && forall i :: 0 <= i < |es| ==> Next(ss[i], es[i], ss[i + 1])
  }

  // ----- history shape -----

  function RowsOf(rows: seq<Reg>, pk: Pubkey): seq<Reg> {
    if rows == [] then []
    else
      var before, last := RowsOf(rows[..|rows| - 1], pk), rows[|rows| - 1];
      if last.pubkey == pk then before + [last] else before
  }

  // Timestamps strictly increase and neighbours differ in their preferences.
  ghost predicate WellShaped(h: seq<Reg>) {
    && (forall i, j :: 0 <= i < j < |h| ==> h[i].timestamp < h[j].timestamp)
    && (forall i :: 0 < i < |h| ==> h[i - 1].prefs != h[i].prefs)
  }

  // In a well-shaped history the newest row is the last one.
  lemma {:induction false} LatestIsLast(rows: seq<Reg>, pk: Pubkey)
    requires WellShaped(RowsOf(rows, pk))
    ensures var h := RowsOf(rows, pk);
      if h == [] then Latest(rows, pk) == None else Latest(rows, pk) == Some(h[|h| - 1])
  {
    if rows != [] {
      var before := rows[..|rows| - 1];
      var h, h0 := RowsOf(rows, pk), RowsOf(before, pk);
      assert forall i :: 0 <= i < |h0| ==> h0[i] == h[i];
      LatestIsLast(before, pk);
      if rows[|rows| - 1].pubkey == pk && h0 != [] {
        assert h[|h0| - 1].timestamp < h[|h0|].timestamp;
      }
    }
  }

  lemma RowsOfAppend(rows: seq<Reg>, x: Reg, pk: Pubkey)
    ensures RowsOf(rows + [x], pk) == if x.pubkey == pk then RowsOf(rows, pk) + [x] else RowsOf(rows, pk)
  {
  }

  lemma AppendKeepsShape(h: seq<Reg>, x: Reg)
    requires WellShaped(h)
    requires h != [] ==> h[|h| - 1].timestamp < x.timestamp && h[|h| - 1].prefs != x.prefs
    ensures WellShaped(h + [x])
  {
  }

  lemma SaveKeepsShape(rows: seq<Reg>, x: Reg, pk: Pubkey)
    requires WellShaped(RowsOf(rows, pk))
    ensures WellShaped(RowsOf(SaveRow(rows, x), pk))
  {
    RowsOfAppend(rows, x, pk);
    LatestIsLast(rows, pk);
    if x.pubkey == pk && !Skips(rows, x) { AppendKeepsShape(RowsOf(rows, pk), x); }
  }

  // Whatever is saved, gated or not, crashes included: a history that starts well shaped, as an
  // empty one does, stays so.
  lemma {:induction false} HistoriesAreWellShaped(ss: seq<Stores>, es: seq<Event>, pk: Pubkey)
    requires IsRun(ss, es) && WellShaped(RowsOf(ss[0].rows, pk))
    ensures WellShaped(RowsOf(ss[|es|].rows, pk))
    decreases |es|
  {
    if es != [] {
      var n := |es| - 1;
      assert IsRun(ss[..|es|], es[..n]);
      HistoriesAreWellShaped(ss[..|es|], es[..n], pk);
      assert Next(ss[n], es[n], ss[n + 1]);
      match es[n]
      case Register(x) => SaveKeepsShape(ss[n].rows, x, pk);
      case Crash(x) => SaveKeepsShape(ss[n].rows, x, pk);
      case SaveUngated(x) => SaveKeepsShape(ss[n].rows, x, pk);
      case Sync =>
    }
  }

  // ----- deduplication loses nothing -----

  // The newest row, if there is one to expect, states the preferences of the newest
  // registration seen.
  ghost predicate PrefsKept(rows: seq<Reg>, seen: seq<Reg>, pk: Pubkey) {
    match Latest(seen, pk)
    case None => Latest(rows, pk).None?
    case Some(m) => Latest(rows, pk).Some? && Latest(rows, pk).value.prefs == m.prefs && Latest(rows, pk).value.timestamp <= m.timestamp
  }

  lemma LatestAppend(rows: seq<Reg>, x: Reg, pk: Pubkey)
    ensures Latest(rows + [x], pk) ==
      if x.pubkey == pk && (Latest(rows, pk).None? || x.timestamp > Latest(rows, pk).value.timestamp)
      then Some(x) else Latest(rows, pk)
  {
  }

  lemma LatestAfterSave(rows: seq<Reg>, x: Reg, pk: Pubkey)
    ensures Latest(SaveRow(rows, x), pk) ==
      if x.pubkey == pk && !Skips(rows, x) then Some(x) else Latest(rows, pk)
  {
  }

  // The database rule by itself: with preferences kept so far, saving x keeps them exactly
  // when x is not an older registration that differs from the newest row yet postdates it.
  lemma DatabaseRuleKeepsPrefsIff(rows: seq<Reg>, seen: seq<Reg>, x: Reg)
    requires PrefsKept(rows, seen, x.pubkey)
    ensures
      var row, newest := Latest(rows, x.pubkey), Latest(seen, x.pubkey);
      PrefsKept(SaveRow(rows, x), seen + [x], x.pubkey) <==>
        !(newest.Some? && row.value.timestamp < x.timestamp <= newest.value.timestamp && x.prefs != row.value.prefs)
  {
    LatestAppend(rows, x, x.pubkey);
    LatestAppend(seen, x, x.pubkey);
  }

  // The database rule alone does lose preferences, from an empty table on: the second
  // registration is skipped as a duplicate, then an older one with other preferences goes in
  // and stays the newest row.
  lemma DatabaseRuleAloneLosesPrefs(a: Reg, b: Reg, c: Reg)
    requires a.pubkey == b.pubkey == c.pubkey && a.timestamp < c.timestamp < b.timestamp
    requires a.prefs == b.prefs != c.prefs
    ensures Latest(SaveRow(SaveRow(SaveRow([], a), b), c), c.pubkey) == Some(c)
  {
  }

  function RegisterAll(s: Stores, xs: seq<Reg>): Stores {
    if xs == [] then s else GateAndSave(RegisterAll(s, xs[..|xs| - 1]), xs[|xs| - 1])
  }

  // A zero timestamp never passes the gate, so it counts as nothing seen.
  function NewestTimestamp(seen: seq<Reg>, pk: Pubkey): nat {
    match Latest(seen, pk)
    case None => 0
    case Some(m) => m.timestamp
  }

  // Redis holds the greatest timestamp seen, and the newest row the preferences seen with it.
  ghost predicate Kept(s: Stores, seen: seq<Reg>, pk: Pubkey) {
    && KnownTimestamp(s.times, pk) == NewestTimestamp(seen, pk)
    && if NewestTimestamp(seen, pk) == 0 then Latest(s.rows, pk).None? else PrefsKept(s.rows, seen, pk)
  }

  lemma GateKeeps(s: Stores, seen: seq<Reg>, x: Reg, pk: Pubkey)
    requires Kept(s, seen, pk)
    ensures Kept(GateAndSave(s, x), seen + [x], pk)
  {
    var s' := GateAndSave(s, x);
    LatestAppend(seen, x, pk);
    LatestAfterSave(s.rows, x, pk);
    if x.pubkey == pk && !Gated(s, x) {
      assert Latest(seen + [x], pk) == Some(x);
      assert PrefsKept(s'.rows, seen + [x], pk);
    } else {
      assert Latest(s'.rows, pk) == Latest(s.rows, pk);
    }
  }

  // Gate and rule together, one registration at a time, from stores that have kept what was
  // seen before: for every further sequence of registrations the newest row has the fee
  // recipient and gas limit of the greatest-timestamp registration seen.
  lemma {:induction false} DeduplicationLosesNothing(s: Stores, seen: seq<Reg>, xs: seq<Reg>, pk: Pubkey)
    requires Kept(s, seen, pk)
    ensures Kept(RegisterAll(s, xs), seen + xs, pk)
  {
    if xs == [] {
      assert seen + xs == seen;
    } else {
      var x, before := xs[|xs| - 1], xs[..|xs| - 1];
      assert seen + xs == (seen + before) + [x];
      DeduplicationLosesNothing(s, seen, before, pk);
      GateKeeps(RegisterAll(s, before), seen + before, x, pk);
    }
  }

  // Empty stores have kept everything seen so far.
  lemma FreshStoresKeep(pk: Pubkey)
    ensures Kept(Stores([], map[]), [], pk)
  {
  }

  // ----- recovery -----

  ghost predicate RedisCoversRows(s: Stores) {
    forall pk :: Latest(s.rows, pk).Some? ==> KnownTimestamp(s.times, pk) >= Latest(s.rows, pk).value.timestamp
  }

  // A save without the crash keeps Redis level with the rows of one pubkey.
  lemma SaveKeepsLevel(s: Stores, x: Reg, pk: Pubkey)
    requires RedisCoversRows(s)
    ensures var l := Latest(SaveRow(s.rows, x), pk); l.Some? ==>
      KnownTimestamp(SetIfNewer(s.times, x.pubkey, x.timestamp), pk) >= l.value.timestamp
  {
  }

  // Redis falls behind the table exactly when a crash separates an inserted row from its
  // timestamp; no other step loses the cover, and a sync restores it from any state.
  lemma CoverLostIffCrashAfterInsert(s: Stores, e: Event, s': Stores)
    requires Next(s, e, s') && (RedisCoversRows(s) || e.Sync?)
    ensures RedisCoversRows(s') <==> !(e.Crash? && !Gated(s, e.x) && !Skips(s.rows, e.x))
    ensures forall pk :: KnownTimestamp(s'.times, pk) >= KnownTimestamp(s.times, pk)
  {
    if !e.Sync? {
      forall pk ensures var l := Latest(SaveRow(s.rows, e.x), pk); l.Some? ==>
        KnownTimestamp(SetIfNewer(s.times, e.x.pubkey, e.x.timestamp), pk) >= l.value.timestamp
      {
        SaveKeepsLevel(s, e.x, pk);
      }
      LatestAfterSave(s.rows, e.x, e.x.pubkey);
    }
  }

  // A sync raises each timestamp just as far as the newest row asks, and no other.
  lemma SyncIsMaximum(s: Stores, s': Stores, pk: Pubkey)
    requires Next(s, Sync, s')
    ensures s'.rows == s.rows && IsMaximum(KnownTimestamp(s'.times, pk), KnownTimestamp(s.times, pk), Latest(s.rows, pk))
  {
  }

  // After the housekeeper's sync at point k, and as long as nothing crashes, Redis is at least
  // as new as the table for every pubkey, whatever crashes came before.
  lemma {:induction false} SyncRecovers(ss: seq<Stores>, es: seq<Event>, k: nat, n: nat)
    requires IsRun(ss, es) && k < n <= |es| && es[k].Sync?
    requires forall i :: k < i < n ==> !es[i].Crash?
    ensures RedisCoversRows(ss[n])
    decreases n
  {
    assert Next(ss[n - 1], es[n - 1], ss[n]);
    if k < n - 1 { SyncRecovers(ss, es, k, n - 1); }
    CoverLostIffCrashAfterInsert(ss[n - 1], es[n - 1], ss[n]);
  }
}
