/** The operation whitelist every commit passes through, on build and on receive. */
module Rules {
  import opened Prelude
  import opened Proposals
  import opened Component

  const ML_KEM_768: nat := 0xFDEA

  datatype SuiteClass = SuiteClass(kemPq: bool, sigPq: bool)

  function Class(suite: nat): Option<SuiteClass> {
    if 0x0001 <= suite <= 0x0007 then Some(SuiteClass(false, false))
    else if suite == ML_KEM_768 then Some(SuiteClass(true, false))
    else None
  }

  function SuiteIsPq(suite: nat): Option<bool> {
    match Class(suite)
    case Some(c) => Some(c.kemPq)
    case None => None
  }

  datatype RuleError =
    | ExternalCommit
    | ForbiddenProposal
    | BadCreation
    | BadUpdate
    | ResumptionPsk
    | NotTwoParty
    | BadAppDataUpdate

  /** The checks on the one admissible custom proposal. */
  function CheckCustom(committer: nat, suite: nat, epoch: U64, b: Bundle): Option<RuleError> {
    var customs := Customs(b);
    if |customs| > 1 then Some(BadAppDataUpdate)
    else if customs == [] then None
    else
      var custom := customs[0];
      if custom.proposal.custom.kind != APP_DATA_UPDATE then Some(ForbiddenProposal)
      else if custom.sender != Member(committer) then Some(BadAppDataUpdate)
      else
        match SuiteIsPq(suite)
        case None => Some(BadAppDataUpdate)
        case Some(isPq) =>
          if isPq && Updates(b) != [] then Some(BadAppDataUpdate)
          else
            match FromCustomProposal(custom.proposal.custom)
            case Err(_) => Some(BadAppDataUpdate)
            case Ok(update) =>
              var attested := if isPq then update.pqEpoch else update.tEpoch;
              if attested != epoch + 1 then Some(BadAppDataUpdate) else None
  }

  function FilterProposals(source: CommitSource, members: nat, suite: nat, epoch: U64, b: Bundle)
      : Result<Bundle, RuleError> {
    match source
    case NewMember => Err(ExternalCommit)
    case ExistingMember(committer) =>
      if Select(b, NeverLegitimate) != [] then Err(ForbiddenProposal)
      else
        var custom := CheckCustom(committer, suite, epoch, b);
        if custom.Some? then Err(custom.value)
        else if exists p | p in Psks(b) :: p.proposal.ref.Resumption? then Err(ResumptionPsk)
        else if members == 1 then
          if |Adds(b)| != 1 || Updates(b) != [] then Err(BadCreation) else Ok(b)
        else if members == 2 then
          if Adds(b) != [] then Err(ForbiddenProposal)
          else if |Updates(b)| > 1 then Err(BadUpdate)
          else if exists u | u in Updates(b) :: !u.sender.Member? || u.sender.index == committer then Err(BadUpdate)
          else Ok(b)
        else Err(NotTwoParty)
  }

  /** Whether the rules pin an updatePath onto a commit being built: on a classical FULL only. */
  predicate PathPinned(suite: nat, b: Bundle) {
    && (exists c | c in Customs(b) :: c.proposal.custom.kind == APP_DATA_UPDATE)
    && SuiteIsPq(suite) != Some(true)
  }

  // ---- what the whitelist admits, by position in the bundle ----

  ghost predicate AtMostOne(b: Bundle, kind: Proposal -> bool) {
    forall i, j :: 0 <= i < j < |b| ==> !(kind(b[i].proposal) && kind(b[j].proposal))
  }

  ghost predicate CreationShape(b: Bundle) {
    && (exists k :: 0 <= k < |b| && b[k].proposal.Add?)
    && AtMostOne(b, (p: Proposal) => p.Add?)
    && (forall k :: 0 <= k < |b| ==> !b[k].proposal.Update?)
  }

  /** Membership is fixed: no Add, and at most one Update, always another member's own leaf. */
  ghost predicate SteadyShape(committer: nat, b: Bundle) {
    && (forall k :: 0 <= k < |b| ==> !b[k].proposal.Add?)
    && AtMostOne(b, (p: Proposal) => p.Update?)
    && (forall k :: 0 <= k < |b| && b[k].proposal.Update? ==> b[k].sender.Member? && b[k].sender.index != committer)
  }

  /** A custom proposal may only be the committer's own truthful attestation of the next epoch of
      this half, alone, and on the PQ half never beside an Update. */
  ghost predicate TruthfulAttestation(committer: nat, suite: nat, epoch: U64, b: Bundle) {
    && AtMostOne(b, (p: Proposal) => p.Custom?)
    && forall k :: 0 <= k < |b| && b[k].proposal.Custom? ==>
         && b[k].sender == Member(committer)
         && SuiteIsPq(suite).Some?
         && (SuiteIsPq(suite) == Some(true) ==> forall j :: 0 <= j < |b| ==> !b[j].proposal.Update?)
         && exists u :: b[k].proposal.custom == ToCustomProposal(u)
                        && epoch + 1 == if SuiteIsPq(suite) == Some(true) then u.pqEpoch else u.tEpoch
  }

  ghost predicate Whitelisted(source: CommitSource, members: nat, suite: nat, epoch: U64, b: Bundle) {
    && source.ExistingMember?
    && (forall k :: 0 <= k < |b| ==> !NeverLegitimate(b[k].proposal) && b[k].proposal != Psk(PskRef.Resumption))
    && TruthfulAttestation(source.index, suite, epoch, b)
    && (members == 1 || members == 2)
    && (members == 1 ==> CreationShape(b))
    && (members == 2 ==> SteadyShape(source.index, b))
  }

  lemma NoneSelected(b: Bundle, kind: Proposal -> bool)
    ensures Select(b, kind) == [] <==> forall k :: 0 <= k < |b| ==> !kind(b[k].proposal)
  {
    if Select(b, kind) == [] {
      forall k | 0 <= k < |b| ensures !kind(b[k].proposal) {
        assert b[k] in b;
      }
    } else {
      assert Select(b, kind)[0] in b;
    }
  }

  lemma CustomCheckIff(committer: nat, suite: nat, epoch: U64, b: Bundle)
    ensures CheckCustom(committer, suite, epoch, b).None? <==> TruthfulAttestation(committer, suite, epoch, b)
  {
    SelectedOnce(b, (p: Proposal) => p.Custom?);
    NoneSelected(b, (p: Proposal) => p.Custom?);
    NoneSelected(b, (p: Proposal) => p.Update?);
    var customs := Customs(b);
    if |customs| == 1 {
      assert customs[0] in b;
      var at :| 0 <= at < |b| && b[at] == customs[0];
      forall k | 0 <= k < |b| && b[k].proposal.Custom? ensures b[k] == customs[0] {
        assert b[k] in customs;
      }
      forall u ensures FromCustomProposal(customs[0].proposal.custom) == Ok(u) <==>
          customs[0].proposal.custom == ToCustomProposal(u) {
        AttestationDecodesIff(customs[0].proposal.custom, u);
      }
    }
  }

  lemma CreationIff(b: Bundle)
    ensures |Adds(b)| == 1 && Updates(b) == [] <==> CreationShape(b)
  {
    SelectedOnce(b, (p: Proposal) => p.Add?);
    NoneSelected(b, (p: Proposal) => p.Add?);
    NoneSelected(b, (p: Proposal) => p.Update?);
  }

  lemma SteadyIff(committer: nat, b: Bundle)
    ensures
      && Adds(b) == [] && |Updates(b)| <= 1
      && (forall u :: u in Updates(b) ==> u.sender.Member? && u.sender.index != committer)
      <==> SteadyShape(committer, b)
  {
    SelectedOnce(b, (p: Proposal) => p.Update?);
    NoneSelected(b, (p: Proposal) => p.Add?);
    if forall u :: u in Updates(b) ==> u.sender.Member? && u.sender.index != committer {
      forall k | 0 <= k < |b| && b[k].proposal.Update? ensures b[k].sender.Member? && b[k].sender.index != committer {
        assert b[k] in Updates(b);
      }
    }
  }

  lemma NoResumptionIff(b: Bundle)
    ensures (forall p :: p in Psks(b) ==> !p.proposal.ref.Resumption?) <==>
            (forall k :: 0 <= k < |b| ==> b[k].proposal != Psk(PskRef.Resumption))
  {
    if forall p :: p in Psks(b) ==> !p.proposal.ref.Resumption? {
      forall k | 0 <= k < |b| ensures b[k].proposal != Psk(PskRef.Resumption) {
        assert b[k].proposal.Psk? ==> b[k] in Psks(b);
      }
    }
  }

  /** The filter accepts a commit iff it is whitelisted, and then leaves the bundle as it was. */
  lemma FilterIff(source: CommitSource, members: nat, suite: nat, epoch: U64, b: Bundle)
    ensures FilterProposals(source, members, suite, epoch, b).Ok? <==> Whitelisted(source, members, suite, epoch, b)
    ensures FilterProposals(source, members, suite, epoch, b).Ok? ==>
              FilterProposals(source, members, suite, epoch, b).value == b
  {
    if source.ExistingMember? {
      NoneSelected(b, NeverLegitimate);
      CustomCheckIff(source.index, suite, epoch, b);
      NoResumptionIff(b);
      CreationIff(b);
      SteadyIff(source.index, b);
    }
  }

  /** The suites the combiner knows: the seven classical ones and ML-KEM-768, whose signatures are
      classical too. */
  lemma SuiteTable(suite: nat)
    ensures SuiteIsPq(suite) == Some(true) <==> suite == 0xFDEA
    ensures SuiteIsPq(suite) == Some(false) <==> suite in {1, 2, 3, 4, 5, 6, 7}
    ensures Class(suite).Some? ==> !Class(suite).value.sigPq
  {
  }

  // ---- which refusal ----

  ghost predicate NoneForbidden(b: Bundle) {
    forall k :: 0 <= k < |b| ==> !NeverLegitimate(b[k].proposal)
  }

  ghost predicate NoResumption(b: Bundle) {
    forall k :: 0 <= k < |b| ==> b[k].proposal != Psk(PskRef.Resumption)
  }

  ghost predicate HasAdd(b: Bundle) {
    exists k :: 0 <= k < |b| && b[k].proposal.Add?
  }

  /** The one custom proposal is of a type nobody may send. */
  ghost predicate ForeignCustom(b: Bundle) {
    && AtMostOne(b, (p: Proposal) => p.Custom?)
    && exists k :: 0 <= k < |b| && b[k].proposal.Custom? && b[k].proposal.custom.kind != APP_DATA_UPDATE
  }

  lemma CustomRefusal(committer: nat, suite: nat, epoch: U64, b: Bundle)
    requires !TruthfulAttestation(committer, suite, epoch, b)
    ensures CheckCustom(committer, suite, epoch, b) ==
              Some(if ForeignCustom(b) then ForbiddenProposal else BadAppDataUpdate)
  {
    CustomCheckIff(committer, suite, epoch, b);
    SelectedOnce(b, (p: Proposal) => p.Custom?);
    NoneSelected(b, (p: Proposal) => p.Custom?);
    var customs := Customs(b);
    if |customs| == 1 {
      assert customs[0] in b;
      var at :| 0 <= at < |b| && b[at] == customs[0];
      forall k | 0 <= k < |b| && b[k].proposal.Custom? ensures b[k] == customs[0] {
        assert b[k] in customs;
      }
    }
  }

  /** Each refusal, in the order the checks are made. */
  lemma RefusalNames(source: CommitSource, members: nat, suite: nat, epoch: U64, b: Bundle)
    ensures var r := FilterProposals(source, members, suite, epoch, b);
            && (source.NewMember? ==> r == Err(ExternalCommit))
            && (source.ExistingMember? ==>
                  if !NoneForbidden(b) then r == Err(ForbiddenProposal)
                  else if !TruthfulAttestation(source.index, suite, epoch, b) then
                    r == Err(if ForeignCustom(b) then ForbiddenProposal else BadAppDataUpdate)
                  else if !NoResumption(b) then r == Err(RuleError.ResumptionPsk)
                  else if members == 1 then (if CreationShape(b) then r == Ok(b) else r == Err(BadCreation))
                  else if members == 2 then
                    (if HasAdd(b) then r == Err(ForbiddenProposal)
                     else if SteadyShape(source.index, b) then r == Ok(b)
                     else r == Err(BadUpdate))
                  else r == Err(NotTwoParty))
  {
    if source.ExistingMember? {
      NoneSelected(b, NeverLegitimate);
      NoneSelected(b, (p: Proposal) => p.Add?);
      CustomCheckIff(source.index, suite, epoch, b);
      if !TruthfulAttestation(source.index, suite, epoch, b) {
        CustomRefusal(source.index, suite, epoch, b);
      }
      NoResumptionIff(b);
      CreationIff(b);
      SteadyIff(source.index, b);
    }
  }
}
