/** The builder and demotion tables of the database, and the service that updates them. */
module Builders {
  import opened RelayTypes

  datatype BuilderRow = BuilderRow(
    status: BuilderStatus,
    collateralId: string,
    collateral: Option<nat>,      // None when the stored text is no 256-bit number
    lastSubmissionSlot: nat, submissions: nat, simErrors: nat)

  // Blinded block signed by a proposer, and the full block it is completed to.
  datatype SignedBlindedBlock = SignedBlindedBlock(slot: nat, proposerIndex: nat, blockHash: Hash, signature: string)
  datatype SignedBlock = SignedBlock(blinded: SignedBlindedBlock, payload: ExecutionPayload)

  datatype Registration = Registration(feeRecipient: Hash, gasLimit: nat, timestamp: nat, signature: string)

  datatype DemotionKey = DemotionKey(slot: nat, builder: Pubkey, blockHash: Hash)

  datatype DemotionRow = DemotionRow(
    key: DemotionKey, trace: BidTrace,
    signedBlock: Option<SignedBlock>, signedRegistration: Option<Registration>)

  datatype Database = Database(builders: map<Pubkey, BuilderRow>, demotions: seq<DemotionRow>)

  datatype DbError = NoRows | UniqueViolation

  // Who shares one collateral: every builder with the same non-empty ID, or one builder alone.
  datatype Group = Solo(builder: Pubkey) | Shared(id: string)

  function GroupOf(builders: map<Pubkey, BuilderRow>, pk: Pubkey): Group {
    if pk in builders && builders[pk].collateralId != "" then Shared(builders[pk].collateralId) else Solo(pk)
  }

  function KeyOfTrace(t: BidTrace): DemotionKey { DemotionKey(t.slot, t.builder, t.blockHash) }

  // UPDATE of the status of one row, or of all rows carrying the same collateral ID.
  function SetStatus(builders: map<Pubkey, BuilderRow>, pk: Pubkey, status: BuilderStatus): map<Pubkey, BuilderRow> {
    if pk !in builders then builders
    else if builders[pk].collateralId == "" then builders[pk := builders[pk].(status := status)]
    else
      map q | q in builders ::
        if builders[q].collateralId == builders[pk].collateralId then builders[q].(status := status) else builders[q]
  }

  // Upsert after a submission: a new builder starts without collateral, an old one only counts.
  function Upsert(builders: map<Pubkey, BuilderRow>, pk: Pubkey, slot: nat, isError: bool): map<Pubkey, BuilderRow> {
    var e := if isError then 1 else 0;
    if pk in builders then
      var row := builders[pk];
      builders[pk := row.(lastSubmissionSlot := slot, submissions := row.submissions + 1, simErrors := row.simErrors + e)]
    else
      builders[pk := BuilderRow(BuilderStatus(false, false, false), "", Some(0), slot, 1, e)]
  }

  predicate HasRow(rows: seq<DemotionRow>, key: DemotionKey) {
    exists i :: 0 <= i < |rows| && rows[i].key == key
  }

  // The table is unique in (builder, block hash), whatever the slot.
  predicate Conflicts(rows: seq<DemotionRow>, t: BidTrace) {
    exists i :: 0 <= i < |rows| && rows[i].key.builder == t.builder && rows[i].key.blockHash == t.blockHash
  }

  // INSERT of a demotion; a row violating uniqueness is refused.
  function InsertDemotion(rows: seq<DemotionRow>, t: BidTrace): seq<DemotionRow> {
    if Conflicts(rows, t) then rows else rows + [DemotionRow(KeyOfTrace(t), t, None, None)]
  }

  function Refunded(row: DemotionRow, key: DemotionKey, block: SignedBlock, reg: Option<Registration>): DemotionRow {
    if row.key == key then row.(signedBlock := Some(block), signedRegistration := reg) else row
  }

  // UPDATE of every row with the key.
  function UpdateDemotions(rows: seq<DemotionRow>, key: DemotionKey, block: SignedBlock, reg: Option<Registration>)
    : (r: seq<DemotionRow>)
    ensures |r| == |rows|
    ensures forall i :: 0 <= i < |rows| ==> r[i] == Refunded(rows[i], key, block, reg)
    ensures RefundWritten(rows, key.slot, key.builder, key.blockHash, block, reg, r)
  {
    if rows == [] then []
    else UpdateDemotions(rows[..|rows| - 1], key, block, reg) + [Refunded(rows[|rows| - 1], key, block, reg)]
  }

  // ----- what the writes mean, row by row -----

  // q shares the collateral of pk.
  predicate SharesCollateral(builders: map<Pubkey, BuilderRow>, pk: Pubkey, q: Pubkey)
    requires pk in builders && q in builders
  {
    q == pk || (builders[pk].collateralId != "" && builders[q].collateralId == builders[pk].collateralId)
  }

  // The builders sharing pk's collateral have the status; all else is as before.
  ghost predicate GroupHasStatus(
    before: map<Pubkey, BuilderRow>, pk: Pubkey, status: BuilderStatus, after: map<Pubkey, BuilderRow>)
  {
    && after.Keys == before.Keys
    && forall q :: q in before ==>
         if pk in before && SharesCollateral(before, pk, q) then after[q].status == status && SameButStatus(before[q], after[q])
         else after[q] == before[q]
  }

  ghost predicate SameButStatus(row: BuilderRow, row': BuilderRow) {
    && row'.collateralId == row.collateralId && row'.collateral == row.collateral
    && row'.lastSubmissionSlot == row.lastSubmissionSlot
    && row'.submissions == row.submissions && row'.simErrors == row.simErrors
  }

  // One submission more is counted for pk, whose row is created if need be, without any flag
  // or collateral; all else is as before.
  ghost predicate SubmissionCounted(
    before: map<Pubkey, BuilderRow>, pk: Pubkey, slot: nat, isError: bool, after: map<Pubkey, BuilderRow>)
  {
    && after.Keys == before.Keys + {pk}
    && (forall q :: q in before && q != pk ==> after[q] == before[q])
    && after[pk].lastSubmissionSlot == slot
    && after[pk].submissions == (if pk in before then before[pk].submissions else 0) + 1
    && after[pk].simErrors == (if pk in before then before[pk].simErrors else 0) + (if isError then 1 else 0)
    && if pk in before then
         after[pk].status == before[pk].status && after[pk].collateralId == before[pk].collateralId
         && after[pk].collateral == before[pk].collateral
       else
         !after[pk].status.isHighPrio && !after[pk].status.isBlacklisted && !after[pk].status.isDemoted
         && after[pk].collateralId == "" && after[pk].collateral == Some(0)
  }

  // A row with the trace's slot, builder and hash, and the trace itself, is added at the end,
  // unless builder and hash are taken.
  ghost predicate DemotionInserted(rows: seq<DemotionRow>, t: BidTrace, rows': seq<DemotionRow>) {
    if exists i :: 0 <= i < |rows| && rows[i].key.builder == t.builder && rows[i].key.blockHash == t.blockHash then rows' == rows
    else
      && |rows'| == |rows| + 1 && rows'[..|rows|] == rows
      && rows'[|rows|].key.slot == t.slot && rows'[|rows|].key.builder == t.builder && rows'[|rows|].key.blockHash == t.blockHash
      && rows'[|rows|].trace == t && rows'[|rows|].signedBlock == None && rows'[|rows|].signedRegistration == None
  }

  // The rows with the slot, builder and hash carry block and registration; all else is as before.
  ghost predicate RefundWritten(
    rows: seq<DemotionRow>, slot: nat, builder: Pubkey, blockHash: Hash, block: SignedBlock, reg: Option<Registration>,
    rows': seq<DemotionRow>)
  {
    && |rows'| == |rows|
    && forall i :: 0 <= i < |rows| ==>
         && rows'[i].key == rows[i].key && rows'[i].trace == rows[i].trace
         && if rows[i].key.slot == slot && rows[i].key.builder == builder && rows[i].key.blockHash == blockHash then
              rows'[i].signedBlock == Some(block) && rows'[i].signedRegistration == reg
            else rows'[i] == rows[i]
  }

  lemma InsertIsInserted(rows: seq<DemotionRow>, t: BidTrace)
    ensures DemotionInserted(rows, t, InsertDemotion(rows, t))
  {
  }

  // A status write reaches all and only the builders of the writer's collateral group.
  lemma SetStatusIsGroupWide(builders: map<Pubkey, BuilderRow>, pk: Pubkey, status: BuilderStatus)
    ensures SetStatus(builders, pk, status).Keys == builders.Keys
    ensures GroupHasStatus(builders, pk, status, SetStatus(builders, pk, status))
    ensures pk in builders ==> forall q :: q in builders ==>
      SetStatus(builders, pk, status)[q] ==
        (if GroupOf(builders, q) == GroupOf(builders, pk) then builders[q].(status := status) else builders[q])
    ensures forall q :: GroupOf(SetStatus(builders, pk, status), q) == GroupOf(builders, q)
  {
  }

  // An upsert leaves status, collateral and group of every row alone; a new row carries none.
  lemma UpsertKeepsGroups(builders: map<Pubkey, BuilderRow>, pk: Pubkey, slot: nat, isError: bool)
    ensures SubmissionCounted(builders, pk, slot, isError, Upsert(builders, pk, slot, isError))
    ensures var after := Upsert(builders, pk, slot, isError);
      && after.Keys == builders.Keys + {pk}
      && (forall q :: q in builders ==>
           after[q].status == builders[q].status && after[q].collateral == builders[q].collateral
           && after[q].collateralId == builders[q].collateralId)
      && (pk !in builders ==> after[pk].collateral == Some(0) && !after[pk].status.isDemoted)
      && forall q :: GroupOf(after, q) == GroupOf(builders, q)
  {
  }

  class DatabaseService {
    var builders: map<Pubkey, BuilderRow>
    var demotions: seq<DemotionRow>

    function State(): Database
      reads this
    {
      Database(builders, demotions)
    }

    constructor (builders: map<Pubkey, BuilderRow>, demotions: seq<DemotionRow>)
      ensures State() == Database(builders, demotions)
    {
      this.builders, this.demotions := builders, demotions;
    }

    method SetBlockBuilderStatus(pk: Pubkey, status: BuilderStatus) returns (err: Option<DbError>)
      modifies this`builders
      ensures builders == SetStatus(old(builders), pk, status) && GroupHasStatus(old(builders), pk, status, builders)
      ensures err == if pk in old(builders) then None else Some(NoRows)
    {
      if pk !in builders {
        return Some(NoRows);
      }
      if builders[pk].collateralId == "" {
        builders := builders[pk := builders[pk].(status := status)];
      } else {
        var id := builders[pk].collateralId;
        builders := map q | q in builders ::
          if builders[q].collateralId == id then builders[q].(status := status) else builders[q];
      }
      return None;
    }

    method UpsertBlockBuilderEntryAfterSubmission(pk: Pubkey, slot: nat, isError: bool)
      modifies this`builders
      ensures builders == Upsert(old(builders), pk, slot, isError)
      ensures SubmissionCounted(old(builders), pk, slot, isError, builders)
    {
      var e := if isError then 1 else 0;
      if pk in builders {
        var row := builders[pk];
        builders := builders[pk := row.(lastSubmissionSlot := slot, submissions := row.submissions + 1, simErrors := row.simErrors + e)];
      } else {
        builders := builders[pk := BuilderRow(BuilderStatus(false, false, false), "", Some(0), slot, 1, e)];
      }
    }

    method InsertBuilderDemotion(t: BidTrace) returns (err: Option<DbError>)
      modifies this`demotions
      ensures demotions == InsertDemotion(old(demotions), t) && DemotionInserted(old(demotions), t, demotions)
      ensures err == if demotions == old(demotions) then Some(UniqueViolation) else None
    {
      if Conflicts(demotions, t) {
        return Some(UniqueViolation);
      }
      demotions := demotions + [DemotionRow(KeyOfTrace(t), t, None, None)];
      return None;
    }

    method UpdateBuilderDemotion(key: DemotionKey, block: SignedBlock, reg: Option<Registration>)
      modifies this`demotions
      ensures demotions == UpdateDemotions(old(demotions), key, block, reg)
      ensures RefundWritten(old(demotions), key.slot, key.builder, key.blockHash, block, reg, demotions)
    {
      var rows := demotions;
      demotions := seq(|rows|, i requires 0 <= i < |rows| => Refunded(rows[i], key, block, reg));
    }

    method GetBuilderDemotion(key: DemotionKey) returns (res: Result<DemotionRow, DbError>)
      ensures res.Ok? <==> HasRow(demotions, key)
      ensures res.Ok? ==> res.value in demotions && res.value.key == key
      ensures res.Err? ==> res.error == NoRows
    {
      if i :| 0 <= i < |demotions| && demotions[i].key == key {
        return Ok(demotions[i]);
      }
      return Err(NoRows);
    }
  }
}
