/** The NIS 2 self-assessment wizard: sector, size and a 16-point checklist
    lead to a regulatory verdict and a protection score; a signed-in user's
    result is saved once per run. */
module Nis2Calculator {
  import opened Assessment
  import Scoring

  /** The 16 measures: seven of basic hygiene, nine of the NIS 2 overlay. */
  const Measures: seq<Measure> := [
    Measure("base_edr", "basic", "Antivirus Nouvelle Génération (EDR)"),
    Measure("base_update", "basic", "Mises à jour Automatiques"),
    Measure("base_backup", "basic", "Sauvegardes Externalisées"),
    Measure("base_firewall", "basic", "Pare-feu Professionnel"),
    Measure("base_access", "basic", "Mots de Passe Robustes"),
    Measure("base_admin", "basic", "Comptes Admin Séparés"),
    Measure("base_wifi", "basic", "Wi-Fi Sécurisé"),
    Measure("nis_risk", "nis2", "Analyse des Risques (PSSI)"),
    Measure("nis_incident", "nis2", "Astreinte Cyber 24/7"),
    Measure("nis_bcp", "nis2", "Plan de Continuité (PCA)"),
    Measure("nis_supply", "nis2", "Contrôle des Fournisseurs"),
    Measure("nis_audit", "nis2", "Audits & Pentests"),
    Measure("nis_mfa", "nis2", "Double Authentification (MFA)"),
    Measure("nis_training", "nis2", "Formation Anti-Phishing"),
    Measure("nis_crypto", "nis2", "Chiffrement des Données"),
    Measure("nis_report", "nis2", "Signalement ANSSI")
  ]

  const TotalMeasures: nat := 16

  /** The catalogue has 16 entries with distinct ids and labels. Each
      distinctness proof is split by column: within the first, within the
      second, and across the two. */
  lemma CatalogueShape()
    ensures |Measures| == TotalMeasures
    ensures DistinctIds(Measures) && DistinctLabels(Measures)
  {
    DistinctMeasureIds();
    DistinctMeasureLabels();
  }

  lemma DistinctMeasureIds()
    ensures |Measures| == TotalMeasures && DistinctIds(Measures)
  {
    BasicIdsDistinct();
    Nis2IdsDistinct();
    CrossIdsDistinct();
  }

  lemma BasicIdsDistinct()
    ensures forall i, j :: 0 <= i < j < 7 ==> Measures[i].id != Measures[j].id
  {
  }

  lemma Nis2IdsDistinct()
    ensures forall i, j :: 7 <= i < j < |Measures| ==> Measures[i].id != Measures[j].id
  {
  }

  lemma CrossIdsDistinct()
    ensures forall i, j :: 0 <= i < 7 <= j < |Measures| ==> Measures[i].id != Measures[j].id
  {
  }

  lemma DistinctMeasureLabels()
    ensures DistinctLabels(Measures)
  {
    BasicLabelsDistinct();
    Nis2LabelsDistinct();
    CrossLabelsDistinct();
  }

  lemma BasicLabelsDistinct()
    ensures forall i, j :: 0 <= i < j < 7 ==> Measures[i].title != Measures[j].title
  {
  }

  lemma Nis2LabelsDistinct()
    ensures forall i, j :: 7 <= i < j < |Measures| ==> Measures[i].title != Measures[j].title
  {
  }

  lemma CrossLabelsDistinct()
    ensures forall i, j :: 0 <= i < 7 <= j < |Measures| ==> Measures[i].title != Measures[j].title
  {
  }

  /** The two checklist columns: the first seven measures, then the other nine. */
  lemma ChecklistColumns()
    ensures InCategory(Measures, "basic") == Measures[..7]
    ensures InCategory(Measures, "nis2") == Measures[7..]
  {
    BasicBlock();
    Nis2Block();
    Columns(Measures, 7, "basic", "nis2");
  }

  lemma BasicBlock()
    ensures forall i :: 0 <= i < 7 ==> Measures[i].category == "basic"
  {
  }

  lemma Nis2Block()
    ensures forall i :: 7 <= i < |Measures| ==> Measures[i].category == "nis2"
  {
  }

  // ---------------------------------------------------------------- verdict

  datatype Verdict = OutOfScope | Vigilance | Essential | Important

  /** The status badge of each verdict. */
  function Status(v: Verdict): string
  {
    match v
    case OutOfScope => "Hors Périmètre NIS 2"
    case Vigilance => "Vigilance Recommandée"
    case Essential => "Entité Essentielle (EE)"
    case Important => "Entité Importante (EI)"
  }

  /** Each verdict has a badge of its own. */
  lemma StatusDistinct(v: Verdict, w: Verdict)
    ensures Status(v) == Status(w) <==> v == w
  {
  }

  /** `getResult`, on the raw codes held in the draft: "none" wins over any
      size, then a small company is only asked for vigilance, then only a
      large Annex I ("critical") company is essential. */
  function GetResult(sectorType: string, size: string): (v: Verdict)
    ensures v == OutOfScope <==> sectorType == "none"
    ensures v == Vigilance <==> sectorType != "none" && size == "small"
    ensures v == Essential <==> sectorType == "critical" && size == "large"
  {
    if sectorType == "none" then OutOfScope
    else if size == "small" then Vigilance
    else if sectorType == "critical" && size == "large" then Essential
    else Important
  }

  /** The typed inputs the buttons can produce. */
  datatype Tier = Critical | Regulated | Unlisted
  datatype Headcount = Large | Medium | Small

  function TierCode(t: Tier): string
  {
    match t
    case Critical => "critical"
    case Regulated => "important"
    case Unlisted => "none"
  }

  function SizeCode(h: Headcount): string
  {
    match h
    case Large => "large"
    case Medium => "medium"
    case Small => "small"
  }

  /** The decision grid written out cell by cell. */
  function ExpectedVerdict(t: Tier, h: Headcount): Verdict
  {
    match (t, h)
    case (Unlisted, _) => OutOfScope
    case (Critical, Large) => Essential
    case (Critical, Medium) => Important
    case (Critical, Small) => Vigilance
    case (Regulated, Large) => Important
    case (Regulated, Medium) => Important
    case (Regulated, Small) => Vigilance
  }

  /** `getResult` agrees with the grid on all nine button combinations. */
  lemma VerdictGrid(t: Tier, h: Headcount)
    ensures GetResult(TierCode(t), SizeCode(h)) == ExpectedVerdict(t, h)
  {
  }

  /** Picking "Autre" jumps straight to the result and leaves the size of an
      earlier run in the draft; the verdict ignores it. */
  lemma OutOfScopeIgnoresSize(size: string)
    ensures GetResult(OutOfList.sectorType, size) == OutOfScope
  {
  }

  /** Every listed sector is in scope; only a large company of the critical
      list is essential, and the regulated list never is. */
  lemma ListedSectors(s: SectorOption, size: string)
    requires s in HighCriticality || s in OtherRegulated
    ensures GetResult(s.sectorType, size) != OutOfScope
    ensures s in OtherRegulated ==> GetResult(s.sectorType, size) != Essential
    ensures s in HighCriticality && size == "large" ==> GetResult(s.sectorType, size) == Essential
  {
    SectorTiers(s);
  }

  /** `scorePercent`: the rounded share of the 16 measures. */
  function ScorePercent(score: int): (pct: int)
    ensures 0 <= score <= 16 ==> 0 <= pct <= 100
    ensures 32 * pct <= 200 * score + 16 < 32 * (pct + 1)
  {
    var p := Scoring.Percent(score, 16);
    assert 0 <= score <= 16 ==> 0 <= p <= 100 by {
      if 0 <= score <= 16 {
        Scoring.PercentBounds(score, 16);
      }
    }
    p
  }

  // ---------------------------------------------------------------- wizard

  /** The wizard component: its step, its draft, whether this run was saved,
      the session it reads (`isAuthenticated`, and whether a token is held) and
      the mounted checklist. `effectDue` records that `step` or
      `isAuthenticated` changed since the save effect last ran. `inFlight`
      holds the bodies of the save requests sent and not answered yet, in
      the order they were sent. `sent` logs every body sent, `writes` every
      body the server stored and acknowledged, and `resetMark` the length of
      `writes` at the last restart. */
  class Nis2Wizard {
    const catalog: seq<Measure>
    var step: Step
    var data: Draft
    var auditSaved: bool
    var authenticated: bool
    var hasToken: bool
    var checklist: ReadinessCheck?
    var effectDue: bool
    var inFlight: seq<Draft>
    ghost var writes: seq<Draft>
    ghost var resetMark: nat
    ghost var sent: seq<Draft>

    /** The checklist is mounted exactly at the readiness step, over this
        catalogue; while `auditSaved` is unset nothing has been stored since
        the last restart; every stored or waiting body was sent, and is
        counted once; the draft's score and missing list come from one
        checklist or are still the empty draft's. */
    ghost predicate Valid()
      reads this, checklist
    {
      |catalog| == TotalMeasures && DistinctIds(catalog)
      && (checklist != null <==> step == Readiness)
      && (checklist != null ==> checklist.catalog == catalog && checklist.Valid())
      && resetMark <= |writes|
      && (!auditSaved ==> |writes| == resetMark)
      && multiset(writes) + multiset(inFlight) <= multiset(sent)
      && DraftInvariant(data)
    }

    static ghost predicate DraftInvariant(d: Draft)
    {
      0 <= d.readinessScore <= TotalMeasures
      && (d.readinessScore + |d.missingItems| == TotalMeasures
          || (d.readinessScore == 0 && d.missingItems == []))
    }

    constructor (authenticated: bool, hasToken: bool)
      ensures Valid() && catalog == Measures
      ensures step == Start && data == EmptyDraft && !auditSaved && writes == [] && inFlight == []
      ensures this.authenticated == authenticated && this.hasToken == hasToken
      ensures effectDue && checklist == null && resetMark == 0 && sent == []
    {
      CatalogueShape();
      catalog := Measures;
      step := Start;
      data := EmptyDraft;
      auditSaved := false;
      this.authenticated := authenticated;
      this.hasToken := hasToken;
      checklist := null;
      effectDue := true;
      writes := [];
      resetMark := 0;
      inFlight := [];
      sent := [];
    }

    /** `setStep`, with React's mounting of the checklist: entering the
        readiness step mounts a fresh one with nothing checked, leaving it
        unmounts it. */
    method Navigate(target: Step)
      requires Valid()
      modifies this
      ensures Valid()
      ensures step == target
      ensures old(step) != Readiness && target == Readiness ==> fresh(checklist) && checklist.checked == {}
      ensures old(step) == target ==> checklist == old(checklist) && effectDue == old(effectDue)
      ensures old(step) != target ==> effectDue
      ensures data == old(data) && auditSaved == old(auditSaved)
      ensures authenticated == old(authenticated) && hasToken == old(hasToken)
      ensures writes == old(writes) && resetMark == old(resetMark)
      ensures inFlight == old(inFlight) && sent == old(sent)
    {
      if step != target {
        if target == Readiness {
          checklist := new ReadinessCheck(catalog);
        } else {
          checklist := null;
        }
        step := target;
        effectDue := true;
      }
    }

    /** "Démarrer le test". */
    method HandleStart()
      requires Valid()
      modifies this
      ensures Valid() && step == Sector && data == old(data)
      ensures auditSaved == old(auditSaved) && writes == old(writes) && inFlight == old(inFlight)
      ensures resetMark == old(resetMark)
      ensures authenticated == old(authenticated) && hasToken == old(hasToken)
      ensures effectDue == (old(effectDue) || old(step) != step) && sent == old(sent)
    {
      Navigate(Sector);
    }

    /** A sector button: record name and tier; "none" goes straight to the
        result, every other tier on to the size question. */
    method HandleSector(sector: SectorOption)
      requires Valid()
      modifies this
      ensures Valid()
      ensures data == old(data).(sectorName := sector.name, sectorType := sector.sectorType)
      ensures step == if sector.sectorType == "none" then Result else Size
      ensures auditSaved == old(auditSaved) && writes == old(writes) && inFlight == old(inFlight)
      ensures resetMark == old(resetMark)
      ensures authenticated == old(authenticated) && hasToken == old(hasToken)
      ensures effectDue == (old(effectDue) || old(step) != step) && sent == old(sent)
    {
      data := data.(sectorName := sector.name, sectorType := sector.sectorType);
      if sector.sectorType == "none" {
        Navigate(Result);
      } else {
        Navigate(Size);
      }
    }

    /** A size button. */
    method HandleSize(size: string)
      requires Valid()
      modifies this
      ensures Valid()
      ensures data == old(data).(size := size) && step == Readiness
      ensures old(step) != Readiness ==> fresh(checklist) && checklist.checked == {}
      ensures auditSaved == old(auditSaved) && writes == old(writes) && inFlight == old(inFlight)
      ensures resetMark == old(resetMark)
      ensures authenticated == old(authenticated) && hasToken == old(hasToken)
      ensures effectDue == (old(effectDue) || old(step) != step) && sent == old(sent)
    {
      data := data.(size := size);
      Navigate(Readiness);
    }

    /** A measure's checkbox on the mounted checklist. */
    method ToggleMeasure(id: string)
      requires Valid() && step == Readiness && id in Ids(catalog)
      modifies checklist
      ensures Valid()
      ensures checklist.checked == Toggled(old(checklist.checked), id)
    {
      checklist.Toggle(id);
    }

    /** "Calculer mon Score" then `handleReadiness`: the draft takes the
        checklist's score and missing labels and the wizard shows the result. */
    method FinishChecklist()
      requires Valid() && step == Readiness
      modifies this
      ensures Valid() && step == Result && checklist == null
      ensures data == old(data).(readinessScore := |old(checklist.checked)|,
                                 missingItems := MissingLabels(catalog, old(checklist.checked)))
      ensures data.readinessScore + |data.missingItems| == TotalMeasures && effectDue
      ensures auditSaved == old(auditSaved) && writes == old(writes) && inFlight == old(inFlight)
      ensures resetMark == old(resetMark)
      ensures authenticated == old(authenticated) && hasToken == old(hasToken)
      ensures sent == old(sent)
    {
      var score, missing := checklist.HandleFinish();
      data := data.(readinessScore := score, missingItems := missing);
      Navigate(Result);
    }

    /** "Retour": one step back (mounting a fresh checklist when it lands on
        the readiness step). */
    method HandleBack()
      requires Valid()
      modifies this
      ensures Valid() && step == Back(old(step)) && data == old(data)
      ensures old(step) == Result ==> fresh(checklist) && checklist.checked == {}
      ensures auditSaved == old(auditSaved) && writes == old(writes) && inFlight == old(inFlight)
      ensures resetMark == old(resetMark)
      ensures authenticated == old(authenticated) && hasToken == old(hasToken)
      ensures effectDue == (old(effectDue) || old(step) != step) && sent == old(sent)
    {
      Navigate(Back(step));
    }

    /** "Recommencer": back to the start with an empty draft and a new run. */
    method Reset()
      requires Valid()
      modifies this
      ensures Valid() && step == Start && data == EmptyDraft && !auditSaved
      ensures writes == old(writes) && resetMark == |writes| && inFlight == old(inFlight)
      ensures authenticated == old(authenticated) && hasToken == old(hasToken)
      ensures effectDue == (old(effectDue) || old(step) != step) && sent == old(sent)
    {
      Navigate(Start);
      data := EmptyDraft;
      auditSaved := false;
      resetMark := |writes|;
    }

    /** The session changes (sign-in, sign-out, token refresh). */
    method SetAuth(isAuthenticated: bool, token: bool)
      requires Valid()
      modifies this
      ensures Valid() && authenticated == isAuthenticated && hasToken == token
      ensures step == old(step) && data == old(data) && auditSaved == old(auditSaved)
      ensures writes == old(writes) && inFlight == old(inFlight)
      ensures effectDue == (old(effectDue) || isAuthenticated != old(authenticated))
      ensures checklist == old(checklist) && resetMark == old(resetMark) && sent == old(sent)
    {
      if isAuthenticated != authenticated {
        effectDue := true;
      }
      authenticated := isAuthenticated;
      hasToken := token;
    }

    /** The auto-save effect after a render; it runs only when `step` or
        `isAuthenticated` changed. When the effect and `saveAudit` both let
        it through, the draft as it stands is sent and the request waits for
        its answer: `auditSaved` is left as it is until then. */
    method RunSaveEffect()
      requires Valid()
      modifies this
      ensures Valid() && !effectDue
      ensures step == old(step) && data == old(data) && auditSaved == old(auditSaved)
      ensures checklist == old(checklist) && writes == old(writes) && resetMark == old(resetMark)
      ensures authenticated == old(authenticated) && hasToken == old(hasToken)
      ensures inFlight == if old(effectDue) && SaveAllowed(step, authenticated, hasToken, auditSaved)
        then old(inFlight) + [data] else old(inFlight)
      ensures sent == if old(effectDue) && SaveAllowed(step, authenticated, hasToken, auditSaved)
        then old(sent) + [data] else old(sent)
    {
      if effectDue && step == Result && authenticated && !auditSaved {
        // saveAudit
        if authenticated && hasToken && !auditSaved {
          Send();
        }
      }
      effectDue := false;
    }

    /** The POST of `saveAudit`: the draft goes out and waits for its answer. */
    method Send()
      requires Valid()
      modifies this
      ensures Valid() && inFlight == old(inFlight) + [data] && sent == old(sent) + [data]
      ensures step == old(step) && data == old(data) && auditSaved == old(auditSaved) && effectDue == old(effectDue)
      ensures checklist == old(checklist) && writes == old(writes) && resetMark == old(resetMark)
      ensures authenticated == old(authenticated) && hasToken == old(hasToken)
    {
      inFlight := inFlight + [data];
      sent := sent + [data];
    }

    /** The answer to the `i`-th request still waiting. `ok` is
        `response.ok`: the server stored the body it was sent, and
        `auditSaved` becomes true in whatever run the wizard is in by now. A
        refusal or a network error only ends the wait. */
    method SaveResponse(i: nat, ok: bool)
      requires Valid() && i < |inFlight|
      modifies this
      ensures Valid()
      ensures inFlight == old(inFlight[..i] + inFlight[i + 1..])
      ensures writes == if ok then old(writes) + [old(inFlight[i])] else old(writes)
      ensures auditSaved == (old(auditSaved) || ok)
      ensures step == old(step) && data == old(data) && checklist == old(checklist)
      ensures resetMark == old(resetMark) && effectDue == old(effectDue)
      ensures authenticated == old(authenticated) && hasToken == old(hasToken)
      ensures sent == old(sent)
    {
      var body := inFlight[i];
      Settle(i);
      if ok {
        Store(body);
      }
    }

    /** The `i`-th request stops waiting; its body is still owed to `sent`. */
    method Settle(i: nat)
      requires Valid() && i < |inFlight|
      modifies this
      ensures Valid() && inFlight == old(inFlight[..i] + inFlight[i + 1..])
      ensures multiset(writes) + multiset(inFlight) + multiset{old(inFlight[i])} <= multiset(sent)
      ensures step == old(step) && data == old(data) && auditSaved == old(auditSaved) && effectDue == old(effectDue)
      ensures checklist == old(checklist) && writes == old(writes) && resetMark == old(resetMark)
      ensures authenticated == old(authenticated) && hasToken == old(hasToken)
      ensures sent == old(sent)
    {
      assert inFlight == inFlight[..i] + [inFlight[i]] + inFlight[i + 1..];
      inFlight := inFlight[..i] + inFlight[i + 1..];
    }

    /** The server has stored `body`: `auditSaved` is set. */
    method Store(body: Draft)
      requires Valid() && multiset(writes) + multiset(inFlight) + multiset{body} <= multiset(sent)
      modifies this
      ensures Valid() && writes == old(writes) + [body] && auditSaved
      ensures step == old(step) && data == old(data) && inFlight == old(inFlight) && effectDue == old(effectDue)
      ensures checklist == old(checklist) && resetMark == old(resetMark)
      ensures authenticated == old(authenticated) && hasToken == old(hasToken)
      ensures sent == old(sent)
    {
      writes := writes + [body];
      auditSaved := true;
    }

    /** The verdict and score the result page shows. */
    function ResultView(): (r: (Verdict, int))
      reads this, checklist
      requires Valid()
      ensures r.0 == GetResult(data.sectorType, data.size)
      ensures 0 <= r.1 <= 100 && r.1 == ScorePercent(data.readinessScore)
    {
      (GetResult(data.sectorType, data.size), ScorePercent(data.readinessScore))
    }
  }

  /** An out-of-scope run keeps the empty draft's score of 0 and its empty
      list: the result page shows the "Failles critiques" box with nothing
      in it. */
  method OutOfScopeFaults(w: Nis2Wizard, sector: SectorOption)
    requires w.Valid() && w.data == EmptyDraft && sector.sectorType == "none"
    modifies w
    ensures w.Valid() && w.step == Result && GetResult(w.data.sectorType, w.data.size) == OutOfScope
    ensures FaultPreview(w.data.readinessScore, TotalMeasures, w.data.missingItems) == (true, [], 0)
  {
    w.HandleSector(sector);
  }

  /** "Autre" on the sector step, signed in and unsaved: the jump to the
      result runs the effect, and the draft goes out with its score of 0 and
      no missing measures. */
  method OutOfScopeSaved(w: Nis2Wizard, sector: SectorOption)
    requires w.Valid() && w.step == Sector && w.data == EmptyDraft && sector.sectorType == "none"
    requires w.authenticated && w.hasToken && !w.auditSaved
    modifies w
    ensures w.Valid() && w.step == Result && !w.auditSaved && w.writes == old(w.writes)
    ensures w.inFlight == old(w.inFlight) + [w.data] && w.sent == old(w.sent) + [w.data]
    ensures w.data.readinessScore == 0 && w.data.missingItems == [] && w.data.sectorName == sector.name
    ensures GetResult(w.data.sectorType, w.data.size) == OutOfScope
  {
    w.HandleSector(sector);
    w.RunSaveEffect();
  }

  // ---------------------------------------------------------------- save timing

  /** A save acknowledged before the user moves on is the run's only one:
      going back to the checklist and on to the result again sends nothing. */
  method AnsweredSaveOnce(w: Nis2Wizard)
    requires w.Valid() && w.step == Result && w.effectDue && w.inFlight == []
    requires w.authenticated && w.hasToken && !w.auditSaved
    modifies w
    ensures w.Valid() && w.step == Result && w.auditSaved && w.inFlight == []
    ensures w.writes == old(w.writes) + [old(w.data)] && w.resetMark == old(w.resetMark)
  {
    w.RunSaveEffect();
    assert w.inFlight == [old(w.data)];
    w.SaveResponse(0, true);
    assert w.auditSaved && w.writes == old(w.writes) + [old(w.data)];
    w.HandleBack();
    assert w.step == Readiness;
    w.RunSaveEffect();
    w.FinishChecklist();
    assert w.auditSaved && w.inFlight == [];
    w.RunSaveEffect();
  }

  /** The answer is awaited while the page stays usable: going back and
      submitting the checklist again before it arrives sends a second
      request, and once both are acknowledged one run has stored two audits,
      the second with the fresh checklist's score of 0. */
  method DoubleSave(w: Nis2Wizard)
    requires w.Valid() && w.step == Result && w.effectDue && w.inFlight == []
    requires w.authenticated && w.hasToken && !w.auditSaved
    modifies w
    ensures w.Valid() && w.inFlight == [] && w.resetMark == old(w.resetMark)
    ensures |w.writes| == |old(w.writes)| + 2 && w.writes[|old(w.writes)|] == old(w.data)
    ensures w.writes[|old(w.writes)| + 1].readinessScore == 0
  {
    w.RunSaveEffect();
    Resubmit(w);
    w.SaveResponse(0, true);
    w.SaveResponse(0, true);
  }

  /** Back from an unsaved result to a fresh checklist and on again: the
      draft, now with a score of 0, is sent once more. */
  method Resubmit(w: Nis2Wizard)
    requires w.Valid() && w.step == Result && w.authenticated && w.hasToken && !w.auditSaved
    modifies w
    ensures w.Valid() && w.step == Result && !w.auditSaved && w.data.readinessScore == 0
    ensures w.inFlight == old(w.inFlight) + [w.data]
    ensures w.writes == old(w.writes) && w.resetMark == old(w.resetMark)
  {
    w.HandleBack();
    w.RunSaveEffect();
    w.FinishChecklist();
    w.RunSaveEffect();
  }

  /** "Recommencer" while the answer is awaited: the late acknowledgement
      marks the new run as saved, so reaching its result sends nothing, and
      the one audit stored since the restart is the previous run's draft. */
  method StaleFlag(w: Nis2Wizard, sector: SectorOption)
    requires w.Valid() && w.step == Result && w.effectDue && w.inFlight == []
    requires w.authenticated && w.hasToken && !w.auditSaved && sector.sectorType == "none"
    modifies w
    ensures w.Valid() && w.step == Result && w.auditSaved && w.inFlight == []
    ensures |w.writes| == w.resetMark + 1 && w.writes[w.resetMark] == old(w.data)
  {
    LateAnswer(w);
    FlaggedRunUnsaved(w, sector);
  }

  /** The save goes out, "Recommencer" is pressed, and then the answer
      arrives: the new run starts flagged as saved, holding the one audit
      stored since the restart, which is the previous run's draft. */
  method LateAnswer(w: Nis2Wizard)
    requires w.Valid() && w.step == Result && w.effectDue && w.inFlight == []
    requires w.authenticated && w.hasToken && !w.auditSaved
    modifies w
    ensures w.Valid() && w.step == Start && w.auditSaved && w.inFlight == []
    ensures |w.writes| == w.resetMark + 1 && w.writes[w.resetMark] == old(w.data)
  {
    w.RunSaveEffect();
    w.Reset();
    w.RunSaveEffect();
    w.SaveResponse(0, true);
  }

  /** A run that starts with `auditSaved` already set goes through to its
      result without sending anything. */
  method FlaggedRunUnsaved(w: Nis2Wizard, sector: SectorOption)
    requires w.Valid() && w.step == Start && w.auditSaved && w.inFlight == [] && sector.sectorType == "none"
    modifies w
    ensures w.Valid() && w.step == Result && w.auditSaved && w.inFlight == []
    ensures w.writes == old(w.writes) && w.resetMark == old(w.resetMark)
  {
    w.HandleStart();
    w.RunSaveEffect();
    w.HandleSector(sector);
    w.RunSaveEffect();
  }
}
