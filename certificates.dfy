/** What the two audit certificate routes decide before drawing the PDF: the
    owner-scoped lookup, the grade and colour, the labels and the
    recommendation bullets. */
module Certificates {
  import opened Wrappers
  import opened Scoring
  import opened Audits
  import Nis2Calculator
  import Iso27001Calculator

  const Red: string := "#ef4444"
  const Green: string := "#10b981"
  const Amber: string := "#f59e0b"

  /** The colour both certificates use for a grade. */
  function Colour(b: Band): string
  {
    match b
    case High => Green
    case Mid => Amber
    case Low => Red
  }

  /** NIS 2 `niveau` per grade. */
  function Nis2Level(b: Band): string
  {
    match b
    case High => "Excellent"
    case Mid => "Correct"
    case Low => "Critique"
  }

  /** ISO 27001 `niveau` per grade. */
  function IsoLevel(b: Band): string
  {
    match b
    case High => "Certification prête"
    case Mid => "À renforcer"
    case Low => "Prioritaire"
  }

  /** The NIS 2 route's grading: start at "Critique"/red and overwrite when the
      percentage of 16 reaches 80, else 60. */
  method Nis2Grade(readinessScore: int) returns (scorePercent: int, niveau: string, couleur: string)
    ensures scorePercent == Percent(readinessScore, 16)
    ensures niveau == Nis2Level(BandOf(scorePercent)) && couleur == Colour(BandOf(scorePercent))
  {
    scorePercent := Percent(readinessScore, 16);
    niveau := "Critique";
    couleur := Red;
    if scorePercent >= 80 {
      niveau := "Excellent";
      couleur := Green;
    } else if scorePercent >= 60 {
      niveau := "Correct";
      couleur := Amber;
    }
  }

  /** The ISO route's grading over 14 controls. */
  method IsoGrade(readinessScore: int) returns (scorePercent: int, niveau: string, couleur: string)
    ensures scorePercent == Percent(readinessScore, 14)
    ensures niveau == IsoLevel(BandOf(scorePercent)) && couleur == Colour(BandOf(scorePercent))
  {
    scorePercent := Percent(readinessScore, 14);
    niveau := "Prioritaire";
    couleur := Red;
    if scorePercent >= 80 {
      niveau := "Certification prête";
      couleur := Green;
    } else if scorePercent >= 60 {
      niveau := "À renforcer";
      couleur := Amber;
    }
  }

  /** In measures: 13 or more of 16 is "Excellent" (81%, while 12 is 75%),
      10 to 12 is "Correct" (10 is 63%, 9 is 56%), 9 or fewer "Critique". */
  lemma {:induction false} Nis2GradeByScore(score: int)
    requires 0 <= score <= 16
    ensures BandOf(Percent(score, 16)) == High <==> score >= 13
    ensures BandOf(Percent(score, 16)) == Mid <==> 10 <= score <= 12
    ensures BandOf(Percent(score, 16)) == Low <==> score <= 9
  {
    PercentExamples();
    if score >= 13 {
      PercentMonotone(13, score, 16);
    } else if score >= 10 {
      PercentMonotone(10, score, 16);
      PercentMonotone(score, 12, 16);
    } else {
      PercentMonotone(score, 9, 16);
    }
  }

  /** The ISO certificate grades exactly as the ISO wizard's verdict does. */
  lemma IsoGradeMatchesWizard(score: int)
    requires 0 <= score <= 14
    ensures var b := BandOf(Percent(score, 14));
      (b == High <==> Iso27001Calculator.GetResult(Iso27001Calculator.ScorePercent(score)) == Iso27001Calculator.Ready)
      && (b == Low <==> Iso27001Calculator.GetResult(Iso27001Calculator.ScorePercent(score)) == Iso27001Calculator.Priority)
  {
  }

  // ---------------------------------------------------------------- labels

  /** "Type d'entité" on the NIS 2 certificate. */
  function EntityTypeLabel(sectorType: string): string
  {
    if sectorType == "critical" then "Entité Essentielle (EE)"
    else if sectorType == "important" then "Entité Importante (EI)"
    else "Hors périmètre"
  }

  /** "Taille de l'entreprise" on both certificates. */
  function SizeLabel(companySize: string): string
  {
    if companySize == "large" then "Grande entreprise"
    else if companySize == "medium" then "ETI"
    else "PME"
  }

  /** `value || 'Non renseigné'` on the ISO certificate. */
  function OrUnset(value: string): string
  {
    if value == "" then "Non renseigné" else value
  }

  /** The certificate's entity label is the wizard's badge for the two tiers
      when the company is large; it reads the tier alone, so a medium
      "critical" company the wizard calls EI is certified EE, and an
      unlisted sector is out of scope under any size. */
  lemma {:induction false} EntityLabelVsVerdict(size: string)
    ensures EntityTypeLabel("critical") == Nis2Calculator.Status(Nis2Calculator.GetResult("critical", "large"))
    ensures EntityTypeLabel("important") == Nis2Calculator.Status(Nis2Calculator.GetResult("important", "large"))
    ensures EntityTypeLabel("critical") != Nis2Calculator.Status(Nis2Calculator.GetResult("critical", "medium"))
    ensures Nis2Calculator.GetResult("none", size) == Nis2Calculator.OutOfScope && EntityTypeLabel("none") == "Hors périmètre"
  {
    assert EntityTypeLabel("critical") == "Entité Essentielle (EE)";
    assert Nis2Calculator.Status(Nis2Calculator.Important) == "Entité Importante (EI)";
  }

  /** Only the two codes the size buttons send besides "small" get their own
      label; everything else, "small" included, prints "PME". */
  lemma SizeLabels(companySize: string)
    ensures SizeLabel(companySize) == "PME" <==> companySize != "large" && companySize != "medium"
  {
  }

  // ---------------------------------------------------------------- bullets

  const KeepLevel: string := "• Maintenir le niveau de conformité actuel"
  const FollowUp: string := "• Planifier des audits de suivi réguliers"
  const KeepTraining: string := "• Former continuellement les équipes"
  const MissingTrainings: string := "• Compléter les formations manquantes"
  const ActionPlan: string := "• Établir un plan d'action avec échéances"
  const Remediation: string := "• Mettre en place un plan de remédiation urgent"

  /** The "Recommandations" bullets of the NIS 2 certificate. */
  function Nis2Recommendations(b: Band): (r: seq<string>)
    ensures |r| == if b == Low then 4 else 3
  {
    match b
    case High => [KeepLevel, FollowUp, KeepTraining]
    case Mid => ["• Identifier et corriger les failles prioritaires", MissingTrainings, ActionPlan]
    case Low => ["• Réaliser un audit complet approfondi immédiatement",
                 "• Contacter un expert en cybersécurité", Remediation,
                 "• Former l'équipe de direction aux risques cyber"]
  }

  /** The "Recommandations" bullets of the ISO certificate. */
  function IsoRecommendations(b: Band): (r: seq<string>)
    ensures |r| == if b == Low then 4 else 3
  {
    match b
    case High => [KeepLevel, FollowUp, KeepTraining]
    case Mid => ["• Identifier et corriger les écarts prioritaires", MissingTrainings, ActionPlan]
    case Low => ["• Structurer le SMSI en priorité", "• Contacter un expert ISO 27001",
                 Remediation, "• Former l'équipe de direction à la sécurité"]
  }

  /** The two certificates agree at the top grade, differ only in the first
      bullet at the middle grade and share the remediation bullet at the
      bottom. */
  lemma RecommendationsCompared()
    ensures Nis2Recommendations(High) == IsoRecommendations(High)
    ensures Nis2Recommendations(Mid)[1..] == IsoRecommendations(Mid)[1..]
    ensures Nis2Recommendations(Mid)[0] != IsoRecommendations(Mid)[0]
    ensures Nis2Recommendations(Low)[2] == IsoRecommendations(Low)[2] == Remediation
  {
    assert Nis2Recommendations(Mid)[0][29] == 'f';
    assert IsoRecommendations(Mid)[0][29] != 'f';
  }

  // ---------------------------------------------------------------- routes

  /** Everything the routes print that depends on the audit row. */
  datatype Certificate = Certificate(
    scorePercent: int,
    niveau: string,
    couleur: string,
    sectorLine: string,
    typeLine: string,
    sizeLine: string,
    recommendations: seq<string>)

  /** `GET /api/certificate/:auditId`: 404 (`None`) unless the caller owns an
      audit with that id; otherwise its NIS 2 certificate, whose grade and
      bullets follow the same thresholds. */
  method Nis2Certificate(rows: seq<AuditRow>, auditId: int, userId: int) returns (r: Option<Certificate>)
    ensures r.None? <==> FindOwned(rows, auditId, userId).None?
    ensures r.Some? ==> var a := FindOwned(rows, auditId, userId).value;
      var b := BandOf(Percent(a.readinessScore, 16));
      r.value == Certificate(Percent(a.readinessScore, 16), Nis2Level(b), Colour(b), a.sectorName,
                             EntityTypeLabel(a.sectorType), SizeLabel(a.companySize), Nis2Recommendations(b))
  {
    var audit := FindOwned(rows, auditId, userId);
    if audit.None? {
      return None;
    }
    var a := audit.value;
    var scorePercent, niveau, couleur := Nis2Grade(a.readinessScore);
    r := Some(Certificate(scorePercent, niveau, couleur, a.sectorName, EntityTypeLabel(a.sectorType),
                          SizeLabel(a.companySize), Nis2Recommendations(BandOf(scorePercent))));
  }

  /** `GET /api/certificate-iso27001/:auditId`, with the lookup scoped to the
      owner as the NIS 2 one is. */
  method IsoCertificate(rows: seq<AuditRow>, auditId: int, userId: int) returns (r: Option<Certificate>)
    ensures r.None? <==> FindOwned(rows, auditId, userId).None?
    ensures r.Some? ==> var a := FindOwned(rows, auditId, userId).value;
      var b := BandOf(Percent(a.readinessScore, 14));
      r.value == Certificate(Percent(a.readinessScore, 14), IsoLevel(b), Colour(b), OrUnset(a.sectorName),
                             OrUnset(a.sectorType), SizeLabel(a.companySize), IsoRecommendations(b))
  {
    var audit := FindOwned(rows, auditId, userId);
    if audit.None? {
      return None;
    }
    var a := audit.value;
    var scorePercent, niveau, couleur := IsoGrade(a.readinessScore);
    r := Some(Certificate(scorePercent, niveau, couleur, OrUnset(a.sectorName), OrUnset(a.sectorType),
                          SizeLabel(a.companySize), IsoRecommendations(BandOf(scorePercent))));
  }

  // ---------------------------------------------------------------- the ISO route as written

  /** The columns `audit_results` is created with. */
  const AuditColumns: set<string> := {"id", "user_id", "company_id", "sector_name", "sector_type",
                                      "company_size", "readiness_score", "missing_items", "created_at"}

  /** The columns the ISO route's `WHERE` clause names. */
  const IsoQueryColumns: set<string> := {"id", "user_id", "audit_type"}

  /** A route's answer when its statement can also fail: 404, the 500 of the
      `catch`, or a certificate. */
  datatype RouteReply = NotFound | ServerError | Issued(cert: Certificate)

  /** SQLite prepares a statement only when every column it names exists. */
  predicate Prepares(columns: set<string>, named: set<string>)
  {
    named <= columns
  }

  /** `GET /api/certificate-iso27001/:auditId` as written: the statement is
      refused when it is prepared and the `catch` answers 500. Were the
      column there, the saved rows would hold NULL in it, which never
      equals 'iso27001', and the route would answer 404. */
  function IsoRouteAsWritten(rows: seq<AuditRow>, auditId: int, userId: int): (r: RouteReply)
    ensures r.ServerError? <==> !Prepares(AuditColumns, IsoQueryColumns)
    ensures !r.Issued?
  {
    if Prepares(AuditColumns, IsoQueryColumns) then NotFound else ServerError
  }

  /** The filter names a column the table does not have. */
  lemma AuditTypeMissing()
    ensures "audit_type" in IsoQueryColumns && "audit_type" !in AuditColumns
    ensures !Prepares(AuditColumns, IsoQueryColumns)
  {
    assert "audit_type" in IsoQueryColumns;
  }

  /** So every request fails, even for the owner of an existing audit, which
      the owner-scoped lookup of `IsoCertificate` would find. */
  lemma IsoRouteAlwaysFails(rows: seq<AuditRow>, auditId: int, userId: int)
    ensures IsoRouteAsWritten(rows, auditId, userId) == ServerError
  {
    AuditTypeMissing();
  }

  lemma IsoRouteRefusesOwner()
    ensures var rows := [AuditRow(1, 7, "Santé", "critical", "large", 12, Some([]), 0)];
      FindOwned(rows, 1, 7).Some? && IsoRouteAsWritten(rows, 1, 7) == ServerError
  {
    IsoRouteAlwaysFails([AuditRow(1, 7, "Santé", "critical", "large", 12, Some([]), 0)], 1, 7);
  }
}
