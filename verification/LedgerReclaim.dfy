/** When storage may be taken back, told by what a maintenance worker can check. */
module LedgerReclaim {
  import opened Projects
  import opened LedgerRules
  import opened LedgerInv
  import opened LedgerStorage
  import opened LedgerHistory
  import opened LedgerEdits

  /* ---------- Retiring ---------- */

  /** Between 1 and 64 different names of between 1 and 128 bytes. */
  predicate GoodMembers(members: seq<string>) {
    && 1 <= |members| <= 64 && (forall i :: 0 <= i < |members| ==> 1 <= |members[i]| <= 128)
    && (forall i, j :: 0 <= i < |members| && 0 <= j < |members| && i != j ==> members[i] != members[j])
  }

  lemma {:induction false} DistinctCount(ids: seq<string>)
    ensures |O.Elements(ids)| <= |ids|
    ensures |O.Elements(ids)| == |ids| <==> forall i, j ::
            0 <= i < |ids| && 0 <= j < |ids| && i != j ==> ids[i] != ids[j]
  {
    if ids != [] {
      var n := |ids| - 1;
      var before := ids[..n];
      DistinctCount(before);
      assert forall i :: 0 <= i < n ==> before[i] == ids[i];
      if i :| 0 <= i < n && ids[i] == ids[n] {
        assert O.Elements(ids) == O.Elements(before);
      } else {
        assert O.Elements(ids) == O.Elements(before) + {ids[n]};
      }
    }
  }

  lemma MembersMeans(members: seq<string>)
    ensures ValidMembers(members) <==> GoodMembers(members)
  {
    hide O.Sorted, O.Elements;
    O.SortedListSorts(members);
    SortedLength(O.SortedList(members));
    DistinctCount(members);
  }

  /** The owner has deleted the project or removed the publication, or the publication was given up. */
  predicate Abandoned(l: Ledger, id: VersionId)
    requires id.project in l.projects
  {
    || l.projects[id.project].status == Deleted
    || id in l.removals
    || (id.generation != "" && id.generation in l.operations
        && var op := l.operations[id.generation];
           op.state == Aborted && op.projectID == id.project && op.digest == id.digest
           && op.storageGeneration == id.generation)
  }

  /**
   A measured version starts or goes on retiring exactly if its project is idle, does not show it and has not run out,
   the version is abandoned or already retiring, and the members are the ones pinned before.
   */
  predicate MayStartRetiring(l: Ledger, now: int, id: VersionId, epoch: string, members: seq<string>)
    requires id in l.versions && id.project in l.projects
  {
    var p, v := l.projects[id.project], l.versions[id];
    && (p.status == Deleted || p.status == Active) && p.pendingOperation == ""
    && !(p.status == Active && p.activeDigest == id.digest && p.storageGeneration == id.generation)
    && (p.status == Active ==> !Expired(p, now))
    && (v.state == Retiring || Abandoned(l, id))
    && (v.state == Retiring ==> v.epoch == epoch && v.members == O.SortedList(members))
  }

  lemma RetireExactly(l: Ledger, c: Limits, now: int, id: VersionId, epoch: string, members: seq<string>)
    requires Inv(l, c, now) && id in l.versions && !l.versions[id].unverified && l.versions[id].state != Reclaimed
    ensures id.project in l.projects
    ensures Retire(l, now, id, epoch, members).Ok? <==>
            |epoch| == 64 && GoodMembers(members) && MayStartRetiring(l, now, id, epoch, members)
    ensures Retire(l, now, id, epoch, members).Ok? ==>
              var v, w := l.versions[id], Retire(l, now, id, epoch, members).value.versions;
              && w == l.versions[id := v.(state := Retiring, epoch := epoch, members := O.SortedList(members),
                                          projectDeleted := l.projects[id.project].status == Deleted,
                                          acknowledged := if v.state == Retiring then v.acknowledged else {})]
              && Retire(l, now, id, epoch, members).value.projects == l.projects
  {
    hide Inv, Damaged, ValidMembers, GoodMembers, Retire, MayStartRetiring, O.SortedList;
    MembersMeans(members);
    RetireFacts(l, c, now, id);
    RetireGuards(l, now, id, epoch, members);
    if Retire(l, now, id, epoch, members).Ok? { RetireEffect(l, now, id, epoch, members); }
  }

  /** What the invariant rules out. */
  lemma RetireFacts(l: Ledger, c: Limits, now: int, id: VersionId)
    requires Inv(l, c, now) && id in l.versions && !l.versions[id].unverified && l.versions[id].state != Reclaimed
    ensures Sound(l, id)
  {
    hide Linked, Publishing, Queued, Indexed, Digested, Named, LiveOk, Assigned, BlocksOk, Pools, AllocationsOk,
      ProjectCharges, Quotas, MeasuredOk, Damaged, Serving;
    PoolHolds(l, id);
    QuotaHolds(l, c, id);
    assert LifecycleOk(l.versions[id], l.projects[id.project].status == Deleted);
  }

  ghost predicate Sound(l: Ledger, id: VersionId) {
    && id in l.versions && id.project in l.projects && l.versions[id].app in l.allocations
    && !l.versions[id].unverified && l.versions[id].state != Reclaimed
    && var p, v := l.projects[id.project], l.versions[id];
       && p.id == id.project && p.storageApp == v.app && !Damaged(v, l.allocations[v.app])
       && ReadQuota(l.quotas, p.owner).Ok?
       && v.quotaBytes <= p.chargedBytes <= ReadQuota(l.quotas, p.owner).value.charged
       && (v.state == Retained ==> v.epoch == "") && (v.state == Retiring ==> v.epoch != "")
  }

  lemma RetireGuards(l: Ledger, now: int, id: VersionId, epoch: string, members: seq<string>)
    requires Sound(l, id)
    ensures Retire(l, now, id, epoch, members).Ok? <==>
            |epoch| == 64 && ValidMembers(members) && MayStartRetiring(l, now, id, epoch, members)
  {
    hide Damaged, ValidMembers, O.SortedList, Retired, ReadQuota, MayRetire, Abandoned;
    assert MayRetire(l, l.projects[id.project], id) <==> l.versions[id].state == Retiring || Abandoned(l, id) by {
      AbandonedMeans(l, id);
    }
  }

  lemma AbandonedMeans(l: Ledger, id: VersionId)
    requires id in l.versions && id.project in l.projects && l.projects[id.project].id == id.project
             && l.versions[id].state != Reclaimed
    ensures MayRetire(l, l.projects[id.project], id) <==> l.versions[id].state == Retiring || Abandoned(l, id)
  {}

  lemma RetireEffect(l: Ledger, now: int, id: VersionId, epoch: string, members: seq<string>)
    requires Sound(l, id) && Retire(l, now, id, epoch, members).Ok?
    ensures var v, m := l.versions[id], Retire(l, now, id, epoch, members).value;
            && m.versions == l.versions[id := v.(state := Retiring, epoch := epoch, members := O.SortedList(members),
                                                 projectDeleted := l.projects[id.project].status == Deleted,
                                                 acknowledged := if v.state == Retiring then v.acknowledged else {})]
            && m.projects == l.projects
  {
    hide Damaged, ValidMembers, O.SortedList, ReadQuota, MayRetire, Serves;
  }

  /* ---------- Acknowledging ---------- */

  /**
   An acknowledgement is taken exactly from a pinned member of a version that is being taken back in this epoch. Until
   the last one it is only noted; the last one gives the version's space and charge back.
   */
  lemma AcknowledgeExactly(l: Ledger, c: Limits, now: int, id: VersionId, epoch: string, member: string)
    requires Inv(l, c, now)
    ensures Acknowledge(l, id, epoch, member).Ok? <==>
              && |epoch| == 64 && id in l.versions && l.versions[id].state in {Retiring, Reclaimed}
              && l.versions[id].epoch == epoch && member in l.versions[id].members
    ensures Acknowledge(l, id, epoch, member).Ok? ==>
              var m, v := Acknowledge(l, id, epoch, member).value, l.versions[id];
              var missing := exists x :: x in v.members && x != member && x !in v.acknowledged;
              && (v.state == Reclaimed ==> m == l)
              && (v.state == Retiring && missing ==>
                    m == l.(versions := l.versions[id := v.(acknowledged := v.acknowledged + {member})]))
              && (v.state == Retiring && !missing ==>
                    && id in m.versions && m.versions[id].state == Reclaimed
                    && id.project in l.projects && id.project in m.projects
                    && m.projects[id.project].chargedBytes == l.projects[id.project].chargedBytes - v.quotaBytes
                    && v.app in l.allocations && v.app in m.allocations
                    && m.allocations[v.app].versions == l.allocations[v.app].versions - 1
                    && m.allocations[v.app].contentBytes == l.allocations[v.app].contentBytes - v.contentBytes
                    && (v.app, id) !in m.queue)
  {
    hide Inv, Acknowledge, AfterRefund;
    AcknowledgeGuards(l, c, now, id, epoch, member);
    if Acknowledge(l, id, epoch, member).Ok? && l.versions[id].state == Retiring {
      var v := l.versions[id];
      MissingMeans(v, member);
      var noted := v.(acknowledged := v.acknowledged + {member});
      if AllAcknowledged(noted) {
        RefundSucceeds(l, c, now, id, noted);
        RefundTakes(l, c, now, id, noted);
      }
    }
  }

  lemma AcknowledgeGuards(l: Ledger, c: Limits, now: int, id: VersionId, epoch: string, member: string)
    requires Inv(l, c, now)
    ensures Acknowledge(l, id, epoch, member).Ok? <==>
              && |epoch| == 64 && id in l.versions && l.versions[id].state in {Retiring, Reclaimed}
              && l.versions[id].epoch == epoch && member in l.versions[id].members
    ensures Acknowledge(l, id, epoch, member).Ok? ==>
              var v := l.versions[id];
              var noted := v.(acknowledged := v.acknowledged + {member});
              if v.state == Reclaimed then Acknowledge(l, id, epoch, member).value == l
              else if AllAcknowledged(noted) then Acknowledge(l, id, epoch, member) == Refunded(l, id, noted)
              else Acknowledge(l, id, epoch, member).value == l.(versions := l.versions[id := noted])
  {
    hide Inv, Refunded, AllAcknowledged;
    AcknowledgeInv(l, c, now, id, epoch, member);
  }

  lemma MissingMeans(v: Version, member: string)
    ensures AllAcknowledged(v.(acknowledged := v.acknowledged + {member})) <==>
            !exists x :: x in v.members && x != member && x !in v.acknowledged
  {}

  lemma RefundTakes(l: Ledger, c: Limits, now: int, id: VersionId, v: Version)
    requires Inv(l, c, now) && id in l.versions && l.versions[id].state == Retiring
             && v == l.versions[id].(acknowledged := v.acknowledged)
    requires id.project in l.projects && v.app in l.allocations && l.projects[id.project].owner in l.quotas
    ensures l.projects[id.project].id == id.project
    ensures var m :=
            AfterRefund(l, id, v, l.projects[id.project], l.allocations[v.app], l.quotas[l.projects[id.project].owner]);
            && id in m.versions && m.versions[id].state == Reclaimed && id.project in m.projects
            && m.projects[id.project].chargedBytes == l.projects[id.project].chargedBytes - v.quotaBytes
            && v.app in m.allocations && m.allocations[v.app].versions == l.allocations[v.app].versions - 1
            && m.allocations[v.app].contentBytes == l.allocations[v.app].contentBytes - v.contentBytes
            && (v.app, id) !in m.queue
  {
    hide Inv, Refund;
    InvIdentified(l, c, now);
  }

  /* ---------- Measuring an older version ---------- */

  /** What the pool kept in reserve for the older version: per operation its content, 8 MiB and room for its inodes. */
  function ReservedInodes(files: nat, operations: int): int { operations * (21 * files + 64) }

  function ReservedBytes(content: int, files: nat, operations: int, block: int): int {
    operations * (content + 8 * 0x10_0000) + ReservedInodes(files, operations) * block
  }

  lemma ReserveIs(m: F.Manifest, v: Version, block: int)
    ensures PriorInodes(m, v) == ReservedInodes(|m.files|, v.legacyOperations)
    ensures PriorBytes(m, v, block) == ReservedBytes(v.contentBytes, |m.files|, v.legacyOperations, block)
  {
    assert (|m.files| * 21 + 64) * v.legacyOperations == v.legacyOperations * (21 * |m.files| + 64);
  }

  /**
   An unmeasured version is measured exactly if it is an older one of at most 50000 operations, the manifest describes
   its content, and the pool's reserve covers both what was reserved for it and what it takes. The difference is
   given back to the pool.
   */
  lemma ReconcileExactly(l: Ledger, c: Limits, now: int, id: VersionId, m: F.Manifest)
    requires Inv(l, c, now) && id in l.versions && l.versions[id].unverified
    ensures l.versions[id].app in l.allocations
    ensures var v, a := l.versions[id], l.allocations[l.versions[id].app];
            var bytes := ReservedBytes(v.contentBytes, |m.files|, v.legacyOperations, a.block);
            var inodes := ReservedInodes(|m.files|, v.legacyOperations);
            var measured := F.Allowance(m, a.block);
            && (Reconcile(l, id, m).Ok? <==>
                  && id.generation == "" && 1 <= v.legacyOperations <= 50000
                  && measured.Measured? && measured.usage.contentBytes == v.contentBytes
                  && measured.usage.allocatedBytes <= bytes <= a.legacyBytes && bytes <= a.bytes
                  && inodes <= a.legacyInodes && inodes <= a.inodes)
            && (Reconcile(l, id, m).Ok? ==>
                  var k := Reconcile(l, id, m).value;
                  && id in k.versions && !k.versions[id].unverified
                  && k.versions[id].bytes == measured.usage.allocatedBytes
                  && k.versions[id].inodes == measured.usage.inodes && k.versions[id].block == a.block
                  && v.app in k.allocations && k.allocations[v.app].legacyBytes == a.legacyBytes - bytes
                  && k.allocations[v.app].bytes == a.bytes - bytes + measured.usage.allocatedBytes
                  && k.allocations[v.app].legacyInodes == a.legacyInodes - inodes
                  && k.allocations[v.app].inodes == a.inodes - inodes + measured.usage.inodes)
  {
    hide Inv, F.Allowance, PriorBytes, PriorInodes, ReservedBytes, ReservedInodes;
    UnmeasuredFacts(l, c, now, id);
    ReserveIs(m, l.versions[id], l.allocations[l.versions[id].app].block);
  }

  lemma UnmeasuredFacts(l: Ledger, c: Limits, now: int, id: VersionId)
    requires Inv(l, c, now) && id in l.versions && l.versions[id].unverified
    ensures l.versions[id].state == Retained && l.versions[id].app in l.allocations
    ensures var a := l.allocations[l.versions[id].app];
            a.schema == 2 && a.fence == MEASURED_FENCE && 1 <= a.block <= F.MAX_BLOCK
  {
    hide Linked, Serving, Publishing, Queued, Indexed, Digested, Named, LiveOk, Assigned, Pools, ProjectCharges, Quotas,
      MeasuredOk, Identified;
    assert LifecycleOk(l.versions[id], l.projects[id.project].status == Deleted);
    assert BlockOk(l.versions[id], l.allocations[l.versions[id].app])
           && AllocationOk(l.allocations[l.versions[id].app]);
  }
}
