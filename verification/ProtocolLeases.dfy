// Claiming a dispatch lease and attaching an allow rule under it.
module ProtocolLeases {
  import opened Collections
  import opened ScanTasks
  import opened ScanRecords
  import opened DispatchProtocol
  import opened ProtocolInvariant
  import opened ProtocolSteps
  import opened ProtocolQuiet
  import opened ProtocolWrites
  import Go = GoEngine

  // ------------------------------------------------------------------------ claim

  predicate Claimable(db: Database, id: Id, at: Time) {
    && id in db.jobs && db.jobs[id].status == QUEUED && db.jobs[id].scannerId.None?
    && (db.jobs[id].leaseExpires.None? || db.jobs[id].leaseExpires.value <= at)
  }

  function LeasedJob(j: Job, token: Id, leaseSeconds: nat, at: Time): Job {
    j.(leaseToken := Some(token), leaseExpires := Some(at + leaseSeconds), updatedAt := at)
  }

  lemma ClaimApplies(env: Env, s: System, p: Proc, token: Id, at: Time)
    requires JobsOk(s) && ServingOk(env, s, p) && p.since <= at <= s.clock && Claimable(s.db, p.scan, at)
    ensures var j := s.db.jobs[p.scan];
      && ClaimDispatch(s.db, p.scan, token, env.leaseSeconds, at)
           == Applied(WriteRow(s.db, p.scan, LeasedJob(j, token, env.leaseSeconds, at), None))
      && JobEvolves(j, LeasedJob(j, token, env.leaseSeconds, at))
  {
    hide HistoryOk, StoredOk, PcOk;
    assert JobOk(s, p.scan);
    PutApplies(s, p.scan, LeasedJob(s.db.jobs[p.scan], token, env.leaseSeconds, at), None);
  }

  function ClaimsWith(s: System, scan: Id, token: Id): map<Id, seq<Id>> {
    s.claims[scan := (if scan in s.claims then s.claims[scan] else []) + [token]]
  }

  // The state in which a claim is recorded, before the request moves on.
  function Tokened(s: System, scan: Id, token: Id, won: bool): System {
    s.(tokens := s.tokens[token := scan], claims := if won then ClaimsWith(s, scan, token) else s.claims)
  }

  lemma ClaimStepIs(env: Env, s: System, pid: Id, token: Id, at: Time)
    requires pid in s.procs
    ensures var w := ClaimDispatch(s.db, s.procs[pid].scan, token, env.leaseSeconds, at);
      ClaimStep(env, s, pid, token, at)
        == Settle(Tokened(s, s.procs[pid].scan, token, w.Applied?), pid, w, DispatchAuthorize(token), DispatchReturned)
  {}

  lemma TokenedClaims(s: System, scan: Id, token: Id, won: bool)
    requires ClaimsOk(s) && token !in s.tokens
    ensures ClaimsOk(Tokened(s, scan, token, won))
    ensures won ==> Claimed(Tokened(s, scan, token, won), scan, token)
  {
    var t := Tokened(s, scan, token, won);
    forall k | k in t.claims
      ensures Distinct(t.claims[k]) && forall i :: 0 <= i < |t.claims[k]| ==> t.claims[k][i] in t.tokens
    {
      if won && k == scan && k in s.claims {
        assert t.claims[k] == s.claims[k] + [token];
      }
    }
    if won {
      assert t.claims[scan][|t.claims[scan]| - 1] == token;
    }
  }

  // A lost race changes nothing but the record of the token.
  lemma TokenedEvolves(s: System, scan: Id, token: Id, won: bool)
    requires token !in s.tokens
    ensures Evolves(s, Tokened(s, scan, token, won)) && NoNewActive(s, Tokened(s, scan, token, won))
  {}

  lemma LostClaimPreserves(env: Env, s: System, pid: Id, token: Id)
    requires Inv(env, s) && pid in s.procs && !Admitting(s.procs[pid].pc) && token !in s.tokens
    ensures Keeps(env, s, Tokened(s, s.procs[pid].scan, token, false))
  {
    hide JobOk, JobsOk, Evolves, LinksOk, LocksOk, RoomOk, ResponsesOk, ScansDistinct, ProcsOk, Bystander,
      StrayOk, ClaimsOk, ServingOk, Go.EngineOk, NoNewActive, SameJob;
    var t := Tokened(s, s.procs[pid].scan, token, false);
    TokenedEvolves(s, s.procs[pid].scan, token, false);
    TokenedClaims(s, s.procs[pid].scan, token, false);
    LostClaimLeavesRows(s, t, pid, token);
    LinksFrame(env, s, t);
    ResponsesFrame(s, t);
    PcOf(env, s, pid);
    ServingStaysOk(env, s, t, s.procs[pid]);
    forall id | id in t.db.jobs ensures JobOk(t, id) && SameJob(s, t, id) {
      RowIsOk(env, s, id);
      SameJobStaysOk(s, t, id);
    }
    BystanderPreserves(env, s, t, pid, pid);
  }

  lemma LostClaimLeavesRows(s: System, t: System, pid: Id, token: Id)
    requires pid in s.procs && !Admitting(s.procs[pid].pc)
    requires t == Tokened(s, s.procs[pid].scan, token, false)
    ensures forall id :: id in s.db.jobs ==> SameJob(s, t, id)
    ensures (StrayOk(s) ==> StrayOk(t)) && Bystander(s, t, pid)
  {
    hide EventsOf;
  }

  lemma ClaimedRowOk(env: Env, s: System, t: System, p: Proc, token: Id, at: Time)
    requires JobsOk(s) && ServingOk(env, s, p) && p.since <= at <= s.clock && Claimable(s.db, p.scan, at)
    requires RowWritten(s, t, p.scan, None) && ResultsOf(t.db, p.scan) == ResultsOf(s.db, p.scan)
    requires t.db.jobs[p.scan] == LeasedJob(s.db.jobs[p.scan], token, env.leaseSeconds, at)
    requires t.claims == ClaimsWith(s, p.scan, token)
    ensures JobOk(t, p.scan)
  {
    hide StoredOk, HistoryOk, ResultsOf, EventsOf, PcOk;
    assert JobOk(s, p.scan);
    UneventfulHistory(s, t, p.scan);
    StillNothingStored(s, t, p.scan);
  }

  function ClaimedState(env: Env, s: System, pid: Id, token: Id, at: Time): System
    requires pid in s.procs && s.procs[pid].scan in s.db.jobs
  {
    var scan := s.procs[pid].scan;
    Settle(Tokened(s, scan, token, true), pid,
           Applied(WriteRow(s.db, scan, LeasedJob(s.db.jobs[scan], token, env.leaseSeconds, at), None)),
           DispatchAuthorize(token), DispatchReturned)
  }

  lemma SettledClaim(env: Env, s: System, pid: Id, token: Id, at: Time)
    requires pid in s.procs && s.procs[pid].scan in s.db.jobs && !s.refused && token !in s.tokens
    ensures var scan, t := s.procs[pid].scan, ClaimedState(env, s, pid, token, at);
      && RowWritten(s, t, scan, None)
      && t.db.jobs[scan] == LeasedJob(s.db.jobs[scan], token, env.leaseSeconds, at)
      && ResultsOf(t.db, scan) == ResultsOf(s.db, scan)
  {}

  lemma SettledClaimRest(env: Env, s: System, pid: Id, token: Id, at: Time)
    requires pid in s.procs && s.procs[pid].scan in s.db.jobs && !Admitting(s.procs[pid].pc)
    ensures var p, t := s.procs[pid], ClaimedState(env, s, pid, token, at);
      && t.claims == ClaimsWith(s, p.scan, token) && t.tokens == s.tokens[token := p.scan]
      && t.sent == s.sent && t.replies == s.replies && t.creators == s.creators
      && t.dials == s.dials && t.attachments == s.attachments
      && pid in t.procs && t.procs[pid] == p.(pc := DispatchAuthorize(token), since := s.clock)
      && Bystander(s, t, pid)
  {}

  lemma ClaimantServes(env: Env, t: System, p: Proc, token: Id)
    requires ServingOk(env, t, p) && Claimed(t, p.scan, token)
    ensures ServingOk(env, t, p.(pc := DispatchAuthorize(token), since := t.clock))
  {}

  lemma ClaimedElsewhere(s: System, t: System, scan: Id, token: Id)
    requires t.claims == s.claims && t.tokens == s.tokens
    ensures ClaimsOk(s) == ClaimsOk(t) && Claimed(s, scan, token) == Claimed(t, scan, token)
  {}

  lemma WonClaimPreserves(env: Env, s: System, pid: Id, token: Id, at: Time)
    requires CanProceed(env, s, pid, Claim(token, at)) && Inv(env, s) && Claimable(s.db, s.procs[pid].scan, at)
    ensures Keeps(env, s, ProceedStep(env, s, pid, Claim(token, at)))
  {
    hide Evolves, ServingOk, LinksOk, JobOk, Go.EngineOk, ProcsOk, LocksOk, RoomOk, ResponsesOk, Claimed,
      ClaimsOk, StrayOk, ScansDistinct, Bystander, JobsOk, RowWritten, Settle, JobEvolves, LeasedJob, ClaimDispatch;
    PcOf(env, s, pid);
    var p := s.procs[pid];
    ServingScan(env, s, p);
    ClaimApplies(env, s, p, token, at);
    ClaimStepIs(env, s, pid, token, at);
    SettledClaim(env, s, pid, token, at);
    SettledClaimRest(env, s, pid, token, at);
    var t := ProceedStep(env, s, pid, Claim(token, at));
    ClaimedRowOk(env, s, t, p, token, at);
    TokenedClaims(s, p.scan, token, true);
    ClaimedElsewhere(Tokened(s, p.scan, token, true), t, p.scan, token);
    WrittenEvolves(s, t, p.scan, None);
    LinksFrame(env, s, t);
    ServingStaysOk(env, s, t, p);
    ClaimantServes(env, t, p, token);
    RowWritePreserves(env, s, t, pid, p.scan, None);
  }

  lemma ClaimPreserves(env: Env, s: System, pid: Id, token: Id, at: Time)
    requires CanProceed(env, s, pid, Claim(token, at)) && Inv(env, s)
    ensures Keeps(env, s, ProceedStep(env, s, pid, Claim(token, at)))
  {
    hide Inv, Evolves, Settle, Move, ServingOk;
    var p := s.procs[pid];
    if Claimable(s.db, p.scan, at) {
      WonClaimPreserves(env, s, pid, token, at);
    } else {
      ClaimStepIs(env, s, pid, token, at);
      LostClaimPreserves(env, s, pid, token);
      var t := Tokened(s, p.scan, token, false);
      PcOf(env, t, pid);
      ServingScan(env, t, p);
      PlainPcOk(env, t, p, DispatchReturned);
      UnchangedSettles(env, t, pid, DispatchAuthorize(token), DispatchReturned);
      EvolvesTransitive(s, t, ProceedStep(env, s, pid, Claim(token, at)));
    }
  }

  // ----------------------------------------------------------------------- attach

  predicate Attachable(db: Database, id: Id, rule: Id, token: Id, at: Time) {
    HoldsLease(db, id, token) && rule in db.rules && db.rules[rule].enabled && Unexpired(db.rules[rule], at)
  }

  function RuledJob(j: Job, rule: Id, at: Time): Job {
    j.(allowedTarget := Some(rule), updatedAt := at)
  }

  lemma AttachApplies(env: Env, s: System, p: Proc, rule: Id, token: Id, at: Time)
    requires JobsOk(s) && ServingOk(env, s, p) && p.since <= at <= s.clock
    requires Attachable(s.db, p.scan, rule, token, at)
    ensures var j := s.db.jobs[p.scan];
      && AttachAllowedTarget(s.db, p.scan, rule, token, at)
           == Applied(WriteRow(s.db, p.scan, RuledJob(j, rule, at), None))
      && JobEvolves(j, RuledJob(j, rule, at))
  {
    hide HistoryOk, StoredOk, PcOk;
    assert JobOk(s, p.scan);
    PutApplies(s, p.scan, RuledJob(s.db.jobs[p.scan], rule, at), None);
  }

  lemma AttachedRowOk(env: Env, s: System, t: System, p: Proc, rule: Id, token: Id, at: Time)
    requires JobsOk(s) && ServingOk(env, s, p) && p.since <= at <= s.clock
    requires Attachable(s.db, p.scan, rule, token, at)
    requires RowWritten(s, t, p.scan, None) && ResultsOf(t.db, p.scan) == ResultsOf(s.db, p.scan)
    requires t.db.jobs[p.scan] == RuledJob(s.db.jobs[p.scan], rule, at) && t.claims == s.claims
    ensures JobOk(t, p.scan)
  {
    hide StoredOk, HistoryOk, ResultsOf, EventsOf, PcOk;
    assert JobOk(s, p.scan);
    UneventfulHistory(s, t, p.scan);
    StillNothingStored(s, t, p.scan);
  }

  // The attachment records a rule that admitted the request at that instant:
  // what the earlier decision matched cannot have changed, and the statement
  // itself checked that the rule was still enabled and unexpired.
  lemma AttachmentAdmits(env: Env, s: System, p: Proc, rule: Id, token: Id, pins: seq<Address>, at: Time)
    requires ServingOk(env, s, p) && p.pc == DispatchAttach(token, rule, pins)
    requires Attachable(s.db, p.scan, rule, token, at)
    ensures rule in s.db.rules && AttachmentOk(env, s, Attachment(token, p.scan, rule, s.db.rules[rule], at, pins))
  {}

  function AttachedState(s: System, pid: Id, a: Attachment): System
    requires pid in s.procs && a.scan in s.db.jobs
  {
    Settle(s.(attachments := s.attachments + {a}), pid,
           Applied(WriteRow(s.db, a.scan, RuledJob(s.db.jobs[a.scan], a.ruleId, a.at), None)),
           DispatchSend(a), DispatchFail(a.token, BlockedTarget, true))
  }

  lemma SettledAttach(s: System, pid: Id, a: Attachment)
    requires pid in s.procs && s.procs[pid].scan == a.scan && a.scan in s.db.jobs && !s.refused
    ensures var t := AttachedState(s, pid, a);
      && RowWritten(s, t, a.scan, None) && t.db.jobs[a.scan] == RuledJob(s.db.jobs[a.scan], a.ruleId, a.at)
      && ResultsOf(t.db, a.scan) == ResultsOf(s.db, a.scan)
  {}

  lemma SettledAttachRest(s: System, pid: Id, a: Attachment)
    requires pid in s.procs && s.procs[pid].scan == a.scan && a.scan in s.db.jobs && !Admitting(s.procs[pid].pc)
    ensures var p, t := s.procs[pid], AttachedState(s, pid, a);
      && t.claims == s.claims && t.tokens == s.tokens
      && t.sent == s.sent && t.replies == s.replies && t.creators == s.creators
      && t.dials == s.dials && t.attachments == s.attachments + {a}
      && pid in t.procs && t.procs[pid] == p.(pc := DispatchSend(a), since := s.clock)
      && Bystander(s, t, pid)
  {}

  lemma AttachedLinks(env: Env, s: System, t: System, a: Attachment)
    requires LinksOk(env, s) && Evolves(s, t) && AttachmentOk(env, s, a)
    requires t.attachments == s.attachments + {a} && t.sent == s.sent && t.replies == s.replies
    requires t.creators == s.creators && t.engine == s.engine && t.dials == s.dials
    ensures LinksOk(env, t)
  {
    hide AttachmentOk, MessageOk, ReplyOk, Evolves;
    forall x | x in t.attachments ensures AttachmentOk(env, t, x) {
      AttachmentStaysOk(env, s, t, x);
    }
    forall token | token in t.sent ensures MessageOk(t, token) {
      MessageStaysOk(s, t, token);
    }
    forall token | token in t.replies ensures ReplyOk(t, token) {
      ReplyStaysOk(s, t, token);
    }
    forall g | g in t.engine.origin ensures OriginOk(t, g) {
      assert OriginOk(s, g);
      OriginStaysOk(s, t, g);
    }
  }

  lemma SenderServes(env: Env, t: System, p: Proc, a: Attachment)
    requires ServingOk(env, t, p) && a in t.attachments && a.scan == p.scan
    ensures ServingOk(env, t, p.(pc := DispatchSend(a), since := t.clock))
  {}

  lemma WonAttachPreserves(env: Env, s: System, pid: Id, a: Attachment)
    requires pid in s.procs && s.procs[pid].pc == DispatchAttach(a.token, a.ruleId, a.pins)
    requires s.procs[pid].scan == a.scan
    requires Attachable(s.db, a.scan, a.ruleId, a.token, a.at) && a.rule == s.db.rules[a.ruleId]
    requires s.procs[pid].since <= a.at <= s.clock && Inv(env, s)
    ensures Keeps(env, s, AttachedState(s, pid, a))
  {
    hide Evolves, ServingOk, LinksOk, JobOk, Go.EngineOk, ProcsOk, LocksOk, RoomOk, ResponsesOk, Claimed,
      ClaimsOk, StrayOk, ScansDistinct, Bystander, JobsOk, RowWritten, AttachedState, JobEvolves, RuledJob,
      AttachmentOk;
    PcOf(env, s, pid);
    var p, t := s.procs[pid], AttachedState(s, pid, a);
    AttachApplies(env, s, p, a.ruleId, a.token, a.at);
    AttachmentAdmits(env, s, p, a.ruleId, a.token, a.pins, a.at);
    SettledAttach(s, pid, a);
    SettledAttachRest(s, pid, a);
    AttachedRowOk(env, s, t, p, a.ruleId, a.token, a.at);
    ClaimedElsewhere(s, t, a.scan, a.token);
    WrittenEvolves(s, t, p.scan, None);
    AttachedLinks(env, s, t, a);
    ServingStaysOk(env, s, t, p);
    SenderServes(env, t, p, a);
    RowWritePreserves(env, s, t, pid, p.scan, None);
  }

  lemma AttachStepIs(env: Env, s: System, pid: Id, token: Id, rule: Id, pins: seq<Address>, at: Time)
    requires pid in s.procs && s.procs[pid].pc == DispatchAttach(token, rule, pins)
    requires s.procs[pid].since <= at <= s.clock && ServingOk(env, s, s.procs[pid]) && JobsOk(s)
    ensures var scan, failed := s.procs[pid].scan, DispatchFail(token, BlockedTarget, true);
      AttachStep(s, pid, at) ==
        if Attachable(s.db, scan, rule, token, at)
        then AttachedState(s, pid, Attachment(token, scan, rule, s.db.rules[rule], at, pins))
        else Settle(s, pid, Unchanged, failed, failed)
  {
    hide JobsOk, ServingOk, RuledJob;
    if Attachable(s.db, s.procs[pid].scan, rule, token, at) {
      AttachApplies(env, s, s.procs[pid], rule, token, at);
    }
  }

  lemma AttachPreserves(env: Env, s: System, pid: Id, at: Time)
    requires CanProceed(env, s, pid, Attach(at)) && Inv(env, s)
    ensures Keeps(env, s, ProceedStep(env, s, pid, Attach(at)))
  {
    hide Inv, Keeps, Settle, ServingOk, AttachedState, AttachStep, LinksOk, JobsOk, Go.EngineOk;
    PcOf(env, s, pid);
    LinksOf(env, s);
    var p := s.procs[pid];
    AttachStepIs(env, s, pid, p.pc.token, p.pc.rule, p.pc.pins, at);
    if Attachable(s.db, p.scan, p.pc.rule, p.pc.token, at) {
      WonAttachPreserves(env, s, pid, Attachment(p.pc.token, p.scan, p.pc.rule, s.db.rules[p.pc.rule], at, p.pc.pins));
    } else {
      var failed := DispatchFail(p.pc.token, BlockedTarget, true);
      ServingScan(env, s, p);
      PlainPcOk(env, s, p, failed);
      UnchangedSettles(env, s, pid, failed, failed);
    }
  }
}
