/** The ISO 27001 readiness wizard: the same five steps as the NIS 2 one, a
    14-point checklist, and a verdict graded on the score alone. */
module Iso27001Calculator {
  import opened Assessment
  import Scoring

  /** The 14 controls: six of governance, eight operational. */
  const Measures: seq<Measure> := [
    Measure("isms", "governance", "SMSI & politique de sécurité"),
    Measure("risk", "governance", "Analyse de risques"),
    Measure("roles", "governance", "Rôles & responsabilités"),
    Measure("docs", "governance", "Documentation & procédures"),
    Measure("audit", "governance", "Audits internes"),
    Measure("improve", "governance", "Amélioration continue"),
    Measure("asset", "ops", "Gestion des actifs"),
    Measure("access", "ops", "Contrôle d’accès"),
    Measure("logging", "ops", "Journalisation & surveillance"),
    Measure("incident", "ops", "Gestion des incidents"),
    Measure("backup", "ops", "Sauvegardes & reprise"),
    Measure("supplier", "ops", "Fournisseurs & sous-traitants"),
    Measure("awareness", "ops", "Sensibilisation"),
    Measure("crypto", "ops", "Protection des données")
  ]

  const TotalMeasures: nat := 14

  /** The catalogue has 14 entries with distinct ids and labels. */
  lemma CatalogueShape()
    ensures |Measures| == TotalMeasures
    ensures DistinctIds(Measures) && DistinctLabels(Measures)
  {
    DistinctMeasureIds();
    DistinctMeasureLabels();
  }

  lemma DistinctMeasureIds()
    ensures |Measures| == TotalMeasures && DistinctIds(Measures)
  {
    GovernanceIdsDistinct();
    OpsIdsDistinct();
    CrossIdsDistinct();
  }

  lemma GovernanceIdsDistinct()
    ensures forall i, j :: 0 <= i < j < 6 ==> Measures[i].id != Measures[j].id
  {
  }

  lemma OpsIdsDistinct()
    ensures forall i, j :: 6 <= i < j < |Measures| ==> Measures[i].id != Measures[j].id
  {
  }

  lemma CrossIdsDistinct()
    ensures forall i, j :: 0 <= i < 6 <= j < |Measures| ==> Measures[i].id != Measures[j].id
  {
  }

  lemma DistinctMeasureLabels()
    ensures DistinctLabels(Measures)
  {
    GovernanceLabelsDistinct();
    OpsLabelsDistinct();
    CrossLabelsDistinct();
  }

  lemma GovernanceLabelsDistinct()
    ensures forall i, j :: 0 <= i < j < 6 ==> Measures[i].title != Measures[j].title
  {
  }

  lemma OpsLabelsDistinct()
    ensures forall i, j :: 6 <= i < j < |Measures| ==> Measures[i].title != Measures[j].title
  {
  }

  lemma CrossLabelsDistinct()
    ensures forall i, j :: 0 <= i < 6 <= j < |Measures| ==> Measures[i].title != Measures[j].title
  {
  }

  /** The two checklist columns: the first six controls, then the other eight. */
  lemma ChecklistColumns()
    ensures InCategory(Measures, "governance") == Measures[..6]
    ensures InCategory(Measures, "ops") == Measures[6..]
  {
    GovernanceBlock();
    OpsBlock();
    Columns(Measures, 6, "governance", "ops");
  }

  lemma GovernanceBlock()
    ensures forall i :: 0 <= i < 6 ==> Measures[i].category == "governance"
  {
  }

  lemma OpsBlock()
    ensures forall i :: 6 <= i < |Measures| ==> Measures[i].category == "ops"
  {
  }

  // ---------------------------------------------------------------- verdict

  datatype Verdict = Ready | ToReinforce | Priority

  /** The status badge of each verdict. */
  function Status(v: Verdict): string
  {
    match v
    case Ready => "Certification Prête"
    case ToReinforce => "À Renforcer"
    case Priority => "Prioritaire"
  }

  /** Each verdict has a badge of its own. */
  lemma StatusDistinct(v: Verdict, w: Verdict)
    ensures Status(v) == Status(w) <==> v == w
  {
  }

  /** `scorePercent`: the rounded share of the 14 controls. */
  function ScorePercent(score: int): (pct: int)
    ensures 0 <= score <= 14 ==> 0 <= pct <= 100
    ensures 28 * pct <= 200 * score + 14 < 28 * (pct + 1)
  {
    var p := Scoring.Percent(score, 14);
    assert 0 <= score <= 14 ==> 0 <= p <= 100 by {
      if 0 <= score <= 14 {
        Scoring.PercentBounds(score, 14);
      }
    }
    p
  }

  /** `getResult`: 80% and more is ready, 60% and more needs reinforcing,
      anything lower is a priority; the same grades as the certificates. */
  function GetResult(pct: int): (v: Verdict)
    ensures v == Ready <==> Scoring.BandOf(pct) == Scoring.High
    ensures v == ToReinforce <==> Scoring.BandOf(pct) == Scoring.Mid
    ensures v == Priority <==> Scoring.BandOf(pct) == Scoring.Low
  {
    if pct >= 80 then Ready else if pct >= 60 then ToReinforce else Priority
  }

  /** In checked controls: 12 or more of 14 is ready (86%, while 11 is 79%),
      9 to 11 needs reinforcing (9 is 64%, 8 is 57%), 8 or fewer is a priority. */
  lemma {:induction false} ScoreBands(score: int)
    requires 0 <= score <= 14
    ensures GetResult(ScorePercent(score)) == Ready <==> score >= 12
    ensures GetResult(ScorePercent(score)) == ToReinforce <==> 9 <= score <= 11
    ensures GetResult(ScorePercent(score)) == Priority <==> score <= 8
  {
    Scoring.PercentExamples();
    if score >= 12 {
      Scoring.PercentMonotone(12, score, 14);
    } else if score >= 9 {
      Scoring.PercentMonotone(9, score, 14);
      Scoring.PercentMonotone(score, 11, 14);
    } else {
      Scoring.PercentMonotone(score, 8, 14);
    }
  }

  // ---------------------------------------------------------------- wizard

  /** The wizard component: its step, its draft, whether this run was saved,
      the session it reads (`isAuthenticated`, and whether a token is held) and
      the mounted checklist. `effectDue` records that `step` or
      `isAuthenticated` changed since the save effect last ran. `inFlight`
      holds the bodies of the save requests sent and not answered yet, in
      the order they were sent. `sent` logs every body sent, `writes` every
      body the server stored and acknowledged, and `resetMark` the length of
      `writes` at the last restart. */
  class Iso27001Wizard {
    const catalog: seq<Measure>
    var step: Step
    var data: Draft
    var auditSaved: bool
    var authenticated: bool
    var hasToken: bool
    var checklist: ReadinessCheck?
    var effectDue: bool
    var inFlight: seq<Draft>
    ghost var writes: seq<Draft>
    ghost var resetMark: nat
    ghost var sent: seq<Draft>

    /** The checklist is mounted exactly at the readiness step, over this
        catalogue; while `auditSaved` is unset nothing has been stored since
        the last restart; every stored or waiting body was sent, and is
        counted once; the draft's score and missing list come from one
        checklist or are still the empty draft's. */
    ghost predicate Valid()
      reads this, checklist
    {
      |catalog| == TotalMeasures && DistinctIds(catalog)
      && (checklist != null <==> step == Readiness)
      && (checklist != null ==> checklist.catalog == catalog && checklist.Valid())
      && resetMark <= |writes|
      && (!auditSaved ==> |writes| == resetMark)
      && multiset(writes) + multiset(inFlight) <= multiset(sent)
      && DraftInvariant(data)
    }

    static ghost predicate DraftInvariant(d: Draft)
    {
      0 <= d.readinessScore <= TotalMeasures
      && (d.readinessScore + |d.missingItems| == TotalMeasures
          || (d.readinessScore == 0 && d.missingItems == []))
    }

    constructor (authenticated: bool, hasToken: bool)
      ensures Valid() && catalog == Measures
      ensures step == Start && data == EmptyDraft && !auditSaved && writes == [] && inFlight == []
      ensures this.authenticated == authenticated && this.hasToken == hasToken
      ensures effectDue && checklist == null && resetMark == 0 && sent == []
    {
      CatalogueShape();
      catalog := Measures;
      step := Start;
      data := EmptyDraft;
      auditSaved := false;
      this.authenticated := authenticated;
      this.hasToken := hasToken;
      checklist := null;
      effectDue := true;
      writes := [];
      resetMark := 0;
      inFlight := [];
      sent := [];
    }

    /** `setStep`, with React's mounting of the checklist: entering the
        readiness step mounts a fresh one with nothing checked, leaving it
        unmounts it. */
    method Navigate(target: Step)
      requires Valid()
      modifies this
      ensures Valid()
      ensures step == target
      ensures old(step) != Readiness && target == Readiness ==> fresh(checklist) && checklist.checked == {}
      ensures old(step) == target ==> checklist == old(checklist) && effectDue == old(effectDue)
      ensures old(step) != target ==> effectDue
      ensures data == old(data) && auditSaved == old(auditSaved)
      ensures authenticated == old(authenticated) && hasToken == old(hasToken)
      ensures writes == old(writes) && resetMark == old(resetMark)
      ensures inFlight == old(inFlight) && sent == old(sent)
    {
      if step != target {
        if target == Readiness {
          checklist := new ReadinessCheck(catalog);
        } else {
          checklist := null;
        }
        step := target;
        effectDue := true;
      }
    }

    /** "Démarrer le test". */
    method HandleStart()
      requires Valid()
      modifies this
      ensures Valid() && step == Sector && data == old(data)
      ensures auditSaved == old(auditSaved) && writes == old(writes) && inFlight == old(inFlight)
      ensures resetMark == old(resetMark)
      ensures authenticated == old(authenticated) && hasToken == old(hasToken)
      ensures effectDue == (old(effectDue) || old(step) != step) && sent == old(sent)
    {
      Navigate(Sector);
    }

    /** A sector button, "Autre" included: record name and tier and ask for
        the size. */
    method HandleSector(sector: SectorOption)
      requires Valid()
      modifies this
      ensures Valid()
      ensures data == old(data).(sectorName := sector.name, sectorType := sector.sectorType)
      ensures step == Size
      ensures old(step) != Size ==> effectDue
      ensures auditSaved == old(auditSaved) && writes == old(writes) && inFlight == old(inFlight)
      ensures resetMark == old(resetMark)
      ensures authenticated == old(authenticated) && hasToken == old(hasToken)
      ensures effectDue == (old(effectDue) || old(step) != step) && sent == old(sent)
    {
      data := data.(sectorName := sector.name, sectorType := sector.sectorType);
      Navigate(Size);
    }

    /** A size button. */
    method HandleSize(size: string)
      requires Valid()
      modifies this
      ensures Valid()
      ensures data == old(data).(size := size) && step == Readiness
      ensures old(step) != Readiness ==> fresh(checklist) && checklist.checked == {}
      ensures auditSaved == old(auditSaved) && writes == old(writes) && inFlight == old(inFlight)
      ensures resetMark == old(resetMark)
      ensures authenticated == old(authenticated) && hasToken == old(hasToken)
      ensures effectDue == (old(effectDue) || old(step) != step) && sent == old(sent)
    {
      data := data.(size := size);
      Navigate(Readiness);
    }

    /** A measure's checkbox on the mounted checklist. */
    method ToggleMeasure(id: string)
      requires Valid() && step == Readiness && id in Ids(catalog)
      modifies checklist
      ensures Valid()
      ensures checklist.checked == Toggled(old(checklist.checked), id)
    {
      checklist.Toggle(id);
    }

    /** "Calculer mon Score" then `handleReadiness`: the draft takes the
        checklist's score and missing labels and the wizard shows the result. */
    method FinishChecklist()
      requires Valid() && step == Readiness
      modifies this
      ensures Valid() && step == Result && checklist == null
      ensures data == old(data).(readinessScore := |old(checklist.checked)|,
                                 missingItems := MissingLabels(catalog, old(checklist.checked)))
      ensures data.readinessScore + |data.missingItems| == TotalMeasures && effectDue
      ensures auditSaved == old(auditSaved) && writes == old(writes) && inFlight == old(inFlight)
      ensures resetMark == old(resetMark)
      ensures authenticated == old(authenticated) && hasToken == old(hasToken)
      ensures sent == old(sent)
    {
      var score, missing := checklist.HandleFinish();
      data := data.(readinessScore := score, missingItems := missing);
      Navigate(Result);
    }

    /** "Retour": one step back (mounting a fresh checklist when it lands on
        the readiness step). */
    method HandleBack()
      requires Valid()
      modifies this
      ensures Valid() && step == Back(old(step)) && data == old(data)
      ensures old(step) == Result ==> fresh(checklist) && checklist.checked == {}
      ensures auditSaved == old(auditSaved) && writes == old(writes) && inFlight == old(inFlight)
      ensures resetMark == old(resetMark)
      ensures authenticated == old(authenticated) && hasToken == old(hasToken)
      ensures effectDue == (old(effectDue) || old(step) != step) && sent == old(sent)
    {
      Navigate(Back(step));
    }

    /** "Recommencer": back to the start with an empty draft and a new run. */
    method Reset()
      requires Valid()
      modifies this
      ensures Valid() && step == Start && data == EmptyDraft && !auditSaved
      ensures writes == old(writes) && resetMark == |writes| && inFlight == old(inFlight)
      ensures authenticated == old(authenticated) && hasToken == old(hasToken)
      ensures effectDue == (old(effectDue) || old(step) != step) && sent == old(sent)
    {
      Navigate(Start);
      data := EmptyDraft;
      auditSaved := false;
      resetMark := |writes|;
    }

    /** The session changes (sign-in, sign-out, token refresh). */
    method SetAuth(isAuthenticated: bool, token: bool)
      requires Valid()
      modifies this
      ensures Valid() && authenticated == isAuthenticated && hasToken == token
      ensures step == old(step) && data == old(data) && auditSaved == old(auditSaved)
      ensures writes == old(writes) && inFlight == old(inFlight)
      ensures effectDue == (old(effectDue) || isAuthenticated != old(authenticated))
      ensures checklist == old(checklist) && resetMark == old(resetMark) && sent == old(sent)
    {
      if isAuthenticated != authenticated {
        effectDue := true;
      }
      authenticated := isAuthenticated;
      hasToken := token;
    }

    /** The auto-save effect after a render; it runs only when `step` or
        `isAuthenticated` changed. When the effect and `saveAudit` both let
        it through, the draft as it stands is sent and the request waits for
        its answer: `auditSaved` is left as it is until then. */
    method RunSaveEffect()
      requires Valid()
      modifies this
      ensures Valid() && !effectDue
      ensures step == old(step) && data == old(data) && auditSaved == old(auditSaved)
      ensures checklist == old(checklist) && writes == old(writes) && resetMark == old(resetMark)
      ensures authenticated == old(authenticated) && hasToken == old(hasToken)
      ensures inFlight == if old(effectDue) && SaveAllowed(step, authenticated, hasToken, auditSaved)
        then old(inFlight) + [data] else old(inFlight)
      ensures sent == if old(effectDue) && SaveAllowed(step, authenticated, hasToken, auditSaved)
        then old(sent) + [data] else old(sent)
    {
      if effectDue && step == Result && authenticated && !auditSaved {
        // saveAudit
        if authenticated && hasToken && !auditSaved {
          Send();
        }
      }
      effectDue := false;
    }

    /** The POST of `saveAudit`: the draft goes out and waits for its answer. */
    method Send()
      requires Valid()
      modifies this
      ensures Valid() && inFlight == old(inFlight) + [data] && sent == old(sent) + [data]
      ensures step == old(step) && data == old(data) && auditSaved == old(auditSaved) && effectDue == old(effectDue)
      ensures checklist == old(checklist) && writes == old(writes) && resetMark == old(resetMark)
      ensures authenticated == old(authenticated) && hasToken == old(hasToken)
    {
      inFlight := inFlight + [data];
      sent := sent + [data];
    }

    /** The answer to the `i`-th request still waiting. `ok` is
        `response.ok`: the server stored the body it was sent, and
        `auditSaved` becomes true in whatever run the wizard is in by now. A
        refusal or a network error only ends the wait. */
    method SaveResponse(i: nat, ok: bool)
      requires Valid() && i < |inFlight|
      modifies this
      ensures Valid()
      ensures inFlight == old(inFlight[..i] + inFlight[i + 1..])
      ensures writes == if ok then old(writes) + [old(inFlight[i])] else old(writes)
      ensures auditSaved == (old(auditSaved) || ok)
      ensures step == old(step) && data == old(data) && checklist == old(checklist)
      ensures resetMark == old(resetMark) && effectDue == old(effectDue)
      ensures authenticated == old(authenticated) && hasToken == old(hasToken)
      ensures sent == old(sent)
    {
      var body := inFlight[i];
      Settle(i);
      if ok {
        Store(body);
      }
    }

    /** The `i`-th request stops waiting; its body is still owed to `sent`. */
    method Settle(i: nat)
      requires Valid() && i < |inFlight|
      modifies this
      ensures Valid() && inFlight == old(inFlight[..i] + inFlight[i + 1..])
      ensures multiset(writes) + multiset(inFlight) + multiset{old(inFlight[i])} <= multiset(sent)
      ensures step == old(step) && data == old(data) && auditSaved == old(auditSaved) && effectDue == old(effectDue)
      ensures checklist == old(checklist) && writes == old(writes) && resetMark == old(resetMark)
      ensures authenticated == old(authenticated) && hasToken == old(hasToken)
      ensures sent == old(sent)
    {
      assert inFlight == inFlight[..i] + [inFlight[i]] + inFlight[i + 1..];
      inFlight := inFlight[..i] + inFlight[i + 1..];
    }

    /** The server has stored `body`: `auditSaved` is set. */
    method Store(body: Draft)
      requires Valid() && multiset(writes) + multiset(inFlight) + multiset{body} <= multiset(sent)
      modifies this
      ensures Valid() && writes == old(writes) + [body] && auditSaved
      ensures step == old(step) && data == old(data) && inFlight == old(inFlight) && effectDue == old(effectDue)
      ensures checklist == old(checklist) && resetMark == old(resetMark)
      ensures authenticated == old(authenticated) && hasToken == old(hasToken)
      ensures sent == old(sent)
    {
      writes := writes + [body];
      auditSaved := true;
    }

    /** The verdict and score the result page shows: the verdict depends on
        the score alone. */
    function ResultView(): (r: (Verdict, int))
      reads this, checklist
      requires Valid()
      ensures 0 <= r.1 <= 100 && r.1 == ScorePercent(data.readinessScore)
      ensures r.0 == Ready <==> data.readinessScore >= 12
      ensures r.0 == Priority <==> data.readinessScore <= 8
    {
      ScoreBands(data.readinessScore);
      (GetResult(ScorePercent(data.readinessScore)), ScorePercent(data.readinessScore))
    }
  }

  // ---------------------------------------------------------------- save timing

  /** A save acknowledged before the user moves on is the run's only one:
      going back to the checklist and on to the result again sends nothing. */
  method AnsweredSaveOnce(w: Iso27001Wizard)
    requires w.Valid() && w.step == Result && w.effectDue && w.inFlight == []
    requires w.authenticated && w.hasToken && !w.auditSaved
    modifies w
    ensures w.Valid() && w.step == Result && w.auditSaved && w.inFlight == []
    ensures w.writes == old(w.writes) + [old(w.data)] && w.resetMark == old(w.resetMark)
  {
    w.RunSaveEffect();
    w.SaveResponse(0, true);
    w.HandleBack();
    w.RunSaveEffect();
    w.FinishChecklist();
    w.RunSaveEffect();
  }

  /** The answer is awaited while the page stays usable: going back and
      submitting the checklist again before it arrives sends a second
      request, and once both are acknowledged one run has stored two audits,
      the second with the fresh checklist's score of 0. */
  method DoubleSave(w: Iso27001Wizard)
    requires w.Valid() && w.step == Result && w.effectDue && w.inFlight == []
    requires w.authenticated && w.hasToken && !w.auditSaved
    modifies w
    ensures w.Valid() && w.inFlight == [] && w.resetMark == old(w.resetMark)
    ensures |w.writes| == |old(w.writes)| + 2 && w.writes[|old(w.writes)|] == old(w.data)
    ensures w.writes[|old(w.writes)| + 1].readinessScore == 0
  {
    w.RunSaveEffect();
    Resubmit(w);
    w.SaveResponse(0, true);
    w.SaveResponse(0, true);
  }

  /** Back from an unsaved result to a fresh checklist and on again: the
      draft, now with a score of 0, is sent once more. */
  method Resubmit(w: Iso27001Wizard)
    requires w.Valid() && w.step == Result && w.authenticated && w.hasToken && !w.auditSaved
    modifies w
    ensures w.Valid() && w.step == Result && !w.auditSaved && w.data.readinessScore == 0
    ensures w.inFlight == old(w.inFlight) + [w.data]
    ensures w.writes == old(w.writes) && w.resetMark == old(w.resetMark)
  {
    w.HandleBack();
    w.RunSaveEffect();
    w.FinishChecklist();
    w.RunSaveEffect();
  }

  /** "Recommencer" while the answer is awaited: the late acknowledgement
      marks the new run as saved, so reaching its result sends nothing, and
      the one audit stored since the restart is the previous run's draft. */
  method StaleFlag(w: Iso27001Wizard, sector: SectorOption, size: string)
    requires w.Valid() && w.step == Result && w.effectDue && w.inFlight == []
    requires w.authenticated && w.hasToken && !w.auditSaved
    modifies w
    ensures w.Valid() && w.step == Result && w.auditSaved && w.inFlight == []
    ensures |w.writes| == w.resetMark + 1 && w.writes[w.resetMark] == old(w.data)
  {
    LateAnswer(w);
    FlaggedRunUnsaved(w, sector, size);
  }

  /** The save goes out, "Recommencer" is pressed, and then the answer
      arrives: the new run starts flagged as saved, holding the one audit
      stored since the restart, which is the previous run's draft. */
  method LateAnswer(w: Iso27001Wizard)
    requires w.Valid() && w.step == Result && w.effectDue && w.inFlight == []
    requires w.authenticated && w.hasToken && !w.auditSaved
    modifies w
    ensures w.Valid() && w.step == Start && w.auditSaved && w.inFlight == []
    ensures |w.writes| == w.resetMark + 1 && w.writes[w.resetMark] == old(w.data)
  {
    w.RunSaveEffect();
    w.Reset();
    w.RunSaveEffect();
    w.SaveResponse(0, true);
  }

  /** A run that starts with `auditSaved` already set goes through to its
      result without sending anything. */
  method FlaggedRunUnsaved(w: Iso27001Wizard, sector: SectorOption, size: string)
    requires w.Valid() && w.step == Start && w.auditSaved && w.inFlight == []
    modifies w
    ensures w.Valid() && w.step == Result && w.auditSaved && w.inFlight == []
    ensures w.writes == old(w.writes) && w.resetMark == old(w.resetMark)
  {
    w.HandleStart();
    w.RunSaveEffect();
    w.HandleSector(sector);
    w.RunSaveEffect();
    w.HandleSize(size);
    w.RunSaveEffect();
    w.FinishChecklist();
    w.RunSaveEffect();
  }
}
