/** The `createSnapshotInternal` API command: an asynchronous snapshot of a
    volume. It attributes itself to the volume's owner for the audit ledger
    and projects the created snapshot into a snapshot response. */
module CreateSnapshotInternal {

  import opened Wrappers
  import opened ApiCommon
  import Decimal

  /** `getName()`: the key of the response. */
  const Name := "createsnapshotresponse"
  /** `getResultObjectName()`. */
  const ResultObjectName := "snapshot"
  /** `getEventType()`: the same for every request. */
  const EventTypeOf := SnapshotCreate
  /** What the event description says before the volume id. */
  const DescriptionPrefix := "creating snapshot for volume: "

  /** The declared `@Parameter` fields of the command. */
  const Parameters: seq<Parameter> := [
    Parameter("policyid", LongType, false, ""),
    Parameter("volumeid", LongType, true, "")
  ]

  /** A bound command: the required volume id is never null. */
  datatype CreateSnapshotInternalCmd = CreateSnapshotInternalCmd(policyId: Option<Long>, volumeId: Long)

  datatype Volume = Volume(id: Long, accountId: Long, name: string, volumeType: string)
  datatype Account = Account(id: Long, accountName: string, domainId: Long)

  /** The fields of a `SnapshotVO` that the projection reads; `snapshotType`
      is the stored ordinal of a `SnapshotType` constant. */
  datatype Snapshot = Snapshot(
    id: Long, accountId: Long, volumeId: Long, snapshotType: int, created: Option<Date>, name: string)

  /** The read-only lookups of `ApiDBUtils` the command performs, and the
      names of the `SnapshotType` constants in declaration order
      (`SnapshotType.values()`). */
  datatype SnapshotLookups = SnapshotLookups(
    volumes: map<Long, Volume>,       // findVolumeById(id)
    accounts: map<Long, Account>,     // findAccountById(id)
    domainNames: map<Long, string>,   // findDomainById(id).getName()
    snapshotTypeNames: seq<string>)

  /** A `SnapshotResponse`; every field starts unset (`null`). */
  datatype SnapshotResponse = SnapshotResponse(
    id: Option<Long>, accountName: Option<string>, domainId: Option<Long>, domainName: Option<string>,
    snapshotType: Option<string>, volumeId: Option<Long>, volumeName: Option<string>,
    volumeType: Option<string>, created: Option<Date>, name: Option<string>, responseName: Option<string>)

  /** `getAccountId()`: the owner of the volume when it exists, otherwise
      the SYSTEM account, so that a bad volume id is still audited. */
  function AccountId(cmd: CreateSnapshotInternalCmd, volumes: map<Long, Volume>): (r: Long)
    ensures cmd.volumeId in volumes ==> r == volumes[cmd.volumeId].accountId
    ensures cmd.volumeId !in volumes ==> r == AccountIdSystem
  {
    if cmd.volumeId in volumes then volumes[cmd.volumeId].accountId else AccountIdSystem
  }

  /** The attribution depends on the referenced volume only: two snapshots
      of the volume table that agree on it attribute the command alike. */
  lemma AccountIdReadsOnlyVolume(cmd: CreateSnapshotInternalCmd, v1: map<Long, Volume>, v2: map<Long, Volume>)
    requires cmd.volumeId in v1 <==> cmd.volumeId in v2
    requires cmd.volumeId in v1 ==> v1[cmd.volumeId].accountId == v2[cmd.volumeId].accountId
    ensures AccountId(cmd, v1) == AccountId(cmd, v2)
  {
  }

  /** `getEventDescription()`: the fixed prefix, then the volume id as Java
      prints a `Long`. The volume id can be read back from it. */
  function EventDescription(cmd: CreateSnapshotInternalCmd): (r: string)
    ensures |r| > |DescriptionPrefix| && r[..|DescriptionPrefix|] == DescriptionPrefix
    ensures Decimal.ParseLong(r[|DescriptionPrefix|..]) == Some(cmd.volumeId as int)
  {
    Decimal.ParseLongToString(cmd.volumeId);
    var r := DescriptionPrefix + Decimal.LongToString(cmd.volumeId);
    assert r[|DescriptionPrefix|..] == Decimal.LongToString(cmd.volumeId);
    r
  }

  /** The description depends on the volume id only and tells volumes apart. */
  lemma EventDescriptionIdentifiesVolume(c1: CreateSnapshotInternalCmd, c2: CreateSnapshotInternalCmd)
    ensures EventDescription(c1) == EventDescription(c2) <==> c1.volumeId == c2.volumeId
  {
  }

  /** Every lookup the projection dereferences without a null check
      succeeds: the domain of the snapshot's account, the `SnapshotType`
      ordinal used as an index into `values()`, and the snapshot's volume. */
  predicate Resolvable(s: Snapshot, db: SnapshotLookups)
  {
    && (s.accountId in db.accounts ==> db.accounts[s.accountId].domainId in db.domainNames)
    && 0 <= s.snapshotType < |db.snapshotTypeNames|
    && s.volumeId in db.volumes
  }

  /** `getResponse()`: a fresh response filled in by
      successive setters. */
  method GetResponse(s: Snapshot, db: SnapshotLookups) returns (r: SnapshotResponse)
    requires Resolvable(s, db)
    ensures r.id == Some(s.id) && r.volumeId == Some(s.volumeId)
    ensures r.name == Some(s.name) && r.created == s.created
    ensures r.accountName.Some? <==> s.accountId in db.accounts
    ensures r.domainId.Some? <==> s.accountId in db.accounts
    ensures r.domainName.Some? <==> s.accountId in db.accounts
    ensures s.accountId in db.accounts ==>
      var a := db.accounts[s.accountId];
      r.accountName == Some(a.accountName) && r.domainId == Some(a.domainId) &&
      r.domainName == Some(db.domainNames[a.domainId])
    ensures r.snapshotType == Some(db.snapshotTypeNames[s.snapshotType])
    ensures r.volumeName == Some(db.volumes[s.volumeId].name)
    ensures r.volumeType == Some(db.volumes[s.volumeId].volumeType)
    ensures r.responseName == Some("createsnapshotresponse")
  {
    r := SnapshotResponse(None, None, None, None, None, None, None, None, None, None, None);
    r := r.(id := Some(s.id));

    if s.accountId in db.accounts {
      var account := db.accounts[s.accountId];
      r := r.(accountName := Some(account.accountName));
      r := r.(domainId := Some(account.domainId));
      r := r.(domainName := Some(db.domainNames[account.domainId]));
    }

    var volume := db.volumes[s.volumeId];
    var snapshotTypeName := db.snapshotTypeNames[s.snapshotType];
    r := r.(snapshotType := Some(snapshotTypeName));
    r := r.(volumeId := Some(s.volumeId));
    r := r.(volumeName := Some(volume.name));
    r := r.(volumeType := Some(volume.volumeType));
    r := r.(created := s.created);
    r := r.(name := Some(s.name));

    r := r.(responseName := Some(Name));
  }

  /** The volume id is required and the policy id optional. */
  lemma RequiredParameters()
    ensures RequiredNames(Parameters) == {"volumeid"}
    ensures NamesUnique(Parameters)
  {
    assert Parameters[1].name in RequiredNames(Parameters);
  }
}
