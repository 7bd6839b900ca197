/** Known validators: the housekeeper's write-once table in Redis and the API's two in-memory
    indexes over it. */
module KnownValidators {
  import opened RelayTypes
  import opened Decimal

  function LowerChar(c: char): char {
    if 'A' <= c <= 'Z' then c - 'A' + 'a' else c
  }

  function LowerText(s: string): string {
    if s == [] then [] else LowerText(s[..|s| - 1]) + [LowerChar(s[|s| - 1])]
  }

  // ASCII lower case, the form that Redis fields and in-memory keys have.
  function Lower(pk: Pubkey): Pubkey { Pubkey(LowerText(pk.hex)) }

  // The same text, with the letters A to Z replaced by a to z.
  lemma {:induction false} LowerIsLowerCase(s: string)
    ensures |LowerText(s)| == |s|
    ensures forall i :: 0 <= i < |s| ==>
      LowerText(s)[i] as int == s[i] as int + if 'A' <= s[i] <= 'Z' then 32 else 0
  {
    if s != [] { LowerIsLowerCase(s[..|s| - 1]); }
  }

  // A beacon node's answer: entries, as the node spells them, under their lower-case key.
  datatype Validator = Validator(pubkey: Pubkey, index: nat)
  type Fetched = map<Pubkey, Validator>

  ghost predicate WellKeyed(fetched: Fetched) {
    forall k :: k in fetched ==> Lower(fetched[k].pubkey) == k
  }

  // Redis hash of validator indices, as decimal text.
  type Table = map<Pubkey, string>

  function SetNX(t: Table, field: Pubkey, index: nat): Table {
    if field in t then t else t[field := ToText(index)]
  }

  // Set-if-absent of every fetched validator, except those whose write fails or is to come.
  function SetAllNX(t: Table, fetched: Fetched, failing: set<Pubkey>, todo: set<Pubkey>): Table {
    (map k | k in fetched && k !in failing && k !in todo :: ToText(fetched[k].index)) + t
  }

  // The spellings remembered after the same writes.
  function Remembered(saved: set<Pubkey>, fetched: Fetched, failing: set<Pubkey>, todo: set<Pubkey>): set<Pubkey> {
    saved + set k | k in fetched && k !in failing && k !in todo :: fetched[k].pubkey
  }

  lemma NothingWritten(t: Table, saved: set<Pubkey>, fetched: Fetched, failing: set<Pubkey>)
    ensures AllWritten(t, saved, t, saved, fetched, failing, fetched.Keys)
  {
  }

  // Table and memory once every write is made that does not fail and is not to come.
  ghost predicate AllWritten(
    t: Table, saved: set<Pubkey>, t0: Table, saved0: set<Pubkey>, fetched: Fetched, failing: set<Pubkey>, todo: set<Pubkey>)
  {
    t == SetAllNX(t0, fetched, failing, todo) && saved == Remembered(saved0, fetched, failing, todo)
  }

  // What one write changes, unless it fails.
  ghost predicate OneWritten(t: Table, saved: set<Pubkey>, k: Pubkey, v: Validator, fails: bool, t': Table, saved': set<Pubkey>) {
    if fails then t' == t && saved' == saved else t' == SetNX(t, k, v.index) && saved' == saved + {v.pubkey}
  }

  // Taking one validator off the list.
  lemma OneRoundLess(
    t0: Table, saved0: set<Pubkey>, fetched: Fetched, failing: set<Pubkey>, todo: set<Pubkey>, k: Pubkey,
    t: Table, saved: set<Pubkey>, t': Table, saved': set<Pubkey>)
    requires k in todo && k in fetched && AllWritten(t, saved, t0, saved0, fetched, failing, todo)
    requires OneWritten(t, saved, k, fetched[k], k in failing, t', saved')
    ensures AllWritten(t', saved', t0, saved0, fetched, failing, todo - {k})
  {
  }

  class Housekeeper {
    var redis: Table
    var proposersAlreadySaved: set<Pubkey>     // as the beacon node spells them

    // Everything remembered as saved is in Redis.
    ghost predicate Valid()
      reads this
    {
      forall pk :: pk in proposersAlreadySaved ==> Lower(pk) in redis
    }

    constructor (redis: Table)
      ensures Valid() && this.redis == redis && proposersAlreadySaved == {}
    {
      this.redis := redis;
      proposersAlreadySaved := {};
    }

    // Skipping what was saved before leaves the table that writing everything would leave; a
    // failed write is not remembered, so the next round tries it again.
    method UpdateKnownValidators(fetched: Fetched, failing: set<Pubkey>)
      requires Valid() && WellKeyed(fetched)
      modifies this
      ensures Valid()
      ensures redis == SetAllNX(old(redis), fetched, failing, {})
      ensures proposersAlreadySaved == Remembered(old(proposersAlreadySaved), fetched, failing, {})
      ensures forall pk :: pk in proposersAlreadySaved <==>
        pk in old(proposersAlreadySaved) || exists k :: k in fetched && k !in failing && fetched[k].pubkey == pk
    {
      var todo := fetched.Keys;
      NothingWritten(redis, proposersAlreadySaved, fetched, failing);
      while todo != {}
        invariant todo <= fetched.Keys && Valid()
        invariant AllWritten(redis, proposersAlreadySaved, old(redis), old(proposersAlreadySaved), fetched, failing, todo)
        decreases |todo|
      {
        var k :| k in todo;
        ghost var t, saved := redis, proposersAlreadySaved;
        SaveValidator(k, fetched[k], k in failing);
        OneRoundLess(old(redis), old(proposersAlreadySaved), fetched, failing, todo, k, t, saved, redis, proposersAlreadySaved);
        todo := todo - {k};
      }
    }

    // One fetched validator under its key k.
    method SaveValidator(k: Pubkey, v: Validator, fails: bool)
      requires Valid() && Lower(v.pubkey) == k
      modifies this
      ensures Valid()
      ensures OneWritten(old(redis), old(proposersAlreadySaved), k, v, fails, redis, proposersAlreadySaved)
    {
      // avoid resaving
      if v.pubkey !in proposersAlreadySaved && !fails {
        redis := SetNX(redis, Lower(v.pubkey), v.index);
        proposersAlreadySaved := proposersAlreadySaved + {v.pubkey};
      }
    }
  }

  // ----- the table over many rounds -----

  datatype Round = Round(fetched: Fetched, failing: set<Pubkey>)

  function AfterRounds(t: Table, rounds: seq<Round>): Table {
    if rounds == [] then t
    else SetAllNX(AfterRounds(t, rounds[..|rounds| - 1]), rounds[|rounds| - 1].fetched, rounds[|rounds| - 1].failing, {})
  }

  // Stored indices never change, and every entry comes from the table or from a round.
  lemma {:induction false} StoredIndicesNeverChange(t: Table, rounds: seq<Round>, k: Pubkey)
    ensures k in t ==> k in AfterRounds(t, rounds) && AfterRounds(t, rounds)[k] == t[k]
    ensures k in AfterRounds(t, rounds) && k !in t ==>
      exists i :: 0 <= i < |rounds| && k in rounds[i].fetched && k !in rounds[i].failing
                  && AfterRounds(t, rounds)[k] == ToText(rounds[i].fetched[k].index)
    ensures k !in AfterRounds(t, rounds) ==>
      forall i :: 0 <= i < |rounds| ==> k !in rounds[i].fetched || k in rounds[i].failing
  {
    if rounds != [] {
      var before := rounds[..|rounds| - 1];
      StoredIndicesNeverChange(t, before, k);
      var last := rounds[|rounds| - 1];
      if k in AfterRounds(t, before) && k !in t {
        var i :| 0 <= i < |before| && k in before[i].fetched && k !in before[i].failing
                 && AfterRounds(t, before)[k] == ToText(before[i].fetched[k].index);
        assert rounds[i] == before[i];
      } else if k !in AfterRounds(t, before) {
        assert forall i :: 0 <= i < |before| ==> rounds[i] == before[i];
      }
    }
  }

  // ----- the API's copy -----

  // Entries whose text is a 64-bit number; others are left out.
  function Parsed(t: Table): map<Pubkey, nat> {
    map pk | pk in t && ParseUint64(t[pk]).Some? :: ParseUint64(t[pk]).value
  }

  // Every index below 2^64 survives the table; larger ones are dropped.
  lemma ParsedIndex(t: Table, k: Pubkey, index: nat)
    requires k in t && t[k] == ToText(index)
    ensures k in Parsed(t) <==> index < 0x1_0000_0000_0000_0000
    ensures k in Parsed(t) ==> Parsed(t)[k] == index
  {
    ParseUintOfText(index);
  }

  // byIndex names, for every index in use, some validator that has it.
  ghost predicate Inverts(byIndex: map<nat, Pubkey>, byPubkey: map<Pubkey, nat>) {
    && (forall i :: i in byIndex ==> byIndex[i] in byPubkey && byPubkey[byIndex[i]] == i)
    && (forall pk :: pk in byPubkey ==> byPubkey[pk] in byIndex)
  }

  ghost predicate DistinctIndices(byPubkey: map<Pubkey, nat>) {
    forall p, q :: p in byPubkey && q in byPubkey && byPubkey[p] == byPubkey[q] ==> p == q
  }

  class Datastore {
    var knownValidatorsByPubkey: map<Pubkey, nat>
    var knownValidatorsByIndex: map<nat, Pubkey>

    // Both indexes are replaced together, or neither when the table cannot be read.
    method RefreshKnownValidators(redis: Option<Table>) returns (cnt: Option<nat>)
      modifies this
      ensures redis.Some? ==>
        && knownValidatorsByPubkey == Parsed(redis.value)
        && Inverts(knownValidatorsByIndex, knownValidatorsByPubkey)
        && cnt == Some(|knownValidatorsByPubkey|)
      ensures redis.None? ==>
        && knownValidatorsByPubkey == old(knownValidatorsByPubkey)
        && knownValidatorsByIndex == old(knownValidatorsByIndex)
        && cnt == None
    {
      if redis.None? {
        return None;
      }
      var knownValidators := Parsed(redis.value);
      var byIndex: map<nat, Pubkey> := map[];
      var todo := knownValidators.Keys;
      while todo != {}
        invariant todo <= knownValidators.Keys
        invariant forall i :: i in byIndex ==> byIndex[i] in knownValidators && knownValidators[byIndex[i]] == i
        invariant forall pk :: pk in knownValidators.Keys - todo ==> knownValidators[pk] in byIndex
        decreases |todo|
      {
        var pk :| pk in todo;
        todo := todo - {pk};
        byIndex := byIndex[knownValidators[pk] := pk];
      }
      knownValidatorsByPubkey := knownValidators;
      knownValidatorsByIndex := byIndex;
      return Some(|knownValidators|);
    }

    method IsKnownValidator(pk: Pubkey) returns (found: bool)
      ensures found <==> pk in knownValidatorsByPubkey
    {
      found := pk in knownValidatorsByPubkey;
    }

    method GetKnownValidatorPubkeyByIndex(index: nat) returns (pk: Option<Pubkey>)
      ensures pk == if index in knownValidatorsByIndex then Some(knownValidatorsByIndex[index]) else None
    {
      pk := if index in knownValidatorsByIndex then Some(knownValidatorsByIndex[index]) else None;
    }
  }

  lemma {:induction false} SmallerSubset<T>(xs: set<T>, ys: set<T>)
    requires xs <= ys
    ensures |xs| <= |ys| && (|xs| == |ys| ==> xs == ys)
  {
    if x :| x in xs {
      SmallerSubset(xs - {x}, ys - {x});
      assert xs == (xs - {x}) + {x} && ys == (ys - {x}) + {x};
    } else if y :| y in ys {
      assert |ys - {y}| == |ys| - 1;
    }
  }

  // The validators the index names, one for each index.
  lemma {:induction false} NamedValidators(byIndex: map<nat, Pubkey>, byPubkey: map<Pubkey, nat>)
    requires forall i :: i in byIndex ==> byIndex[i] in byPubkey && byPubkey[byIndex[i]] == i
    ensures |byIndex.Values| == |byIndex|
    decreases |byIndex|
  {
    if byIndex != map[] {
      var i :| i in byIndex;
      var rest := byIndex - {i};
      assert rest.Keys == byIndex.Keys - {i};
      NamedValidators(rest, byPubkey);
      forall v | v in byIndex.Values ensures v in rest.Values + {byIndex[i]} {
        var j :| j in byIndex && byIndex[j] == v;
        if j != i { assert rest[j] == v; }
      }
      forall v | v in rest.Values ensures v in byIndex.Values {
        var j :| j in rest && rest[j] == v;
        assert byIndex[j] == v;
      }
      assert byIndex.Values == rest.Values + {byIndex[i]};
      assert byIndex[i] !in rest.Values by {
        assert forall j :: j in rest ==> byPubkey[rest[j]] == j != i;
      }
    }
  }

  // The sizes agree exactly when the indices are distinct.
  lemma SizeOfIndex(byIndex: map<nat, Pubkey>, byPubkey: map<Pubkey, nat>)
    requires Inverts(byIndex, byPubkey)
    ensures |byIndex| <= |byPubkey|
    ensures |byIndex| == |byPubkey| <==> DistinctIndices(byPubkey)
  {
    NamedValidators(byIndex, byPubkey);
    assert byIndex.Values <= byPubkey.Keys;
    SmallerSubset(byIndex.Values, byPubkey.Keys);
    if DistinctIndices(byPubkey) {
      forall pk | pk in byPubkey ensures pk in byIndex.Values {
        var i := byPubkey[pk];
        assert byPubkey[byIndex[i]] == byPubkey[pk];
      }
      assert byIndex.Values == byPubkey.Keys;
    } else {
      var p, q :| p in byPubkey && q in byPubkey && byPubkey[p] == byPubkey[q] && p != q;
      assert !(p in byIndex.Values && q in byIndex.Values);
    }
  }

  // After a refresh the two indexes agree: every byIndex entry inverts byPubkey, and the inverse
  // is complete and the sizes equal exactly when no two validators share an index.
  lemma IndexesAgree(byIndex: map<nat, Pubkey>, byPubkey: map<Pubkey, nat>)
    requires Inverts(byIndex, byPubkey)
    ensures DistinctIndices(byPubkey) <==> |byIndex| == |byPubkey|
    ensures DistinctIndices(byPubkey) <==> forall pk :: pk in byPubkey ==> byIndex[byPubkey[pk]] == pk
  {
    SizeOfIndex(byIndex, byPubkey);
    if forall pk :: pk in byPubkey ==> byIndex[byPubkey[pk]] == pk {
      forall p, q | p in byPubkey && q in byPubkey && byPubkey[p] == byPubkey[q] ensures p == q {
        assert byIndex[byPubkey[p]] == p && byIndex[byPubkey[q]] == q;
      }
    }
  }
}
