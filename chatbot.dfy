/** The chatbot's answer selection, `getAIResponse`: the message is lowered,
    then keyword lists are tried in a fixed priority and the first category
    that matches picks the reply. Reply texts are named, not spelled out. */
module Chatbot {

  // ---------------------------------------------------------------- text

  /** `lowerMessage.includes(sub)`. */
  predicate Contains(s: string, sub: string)
  {
    sub <= s || (s != [] && Contains(s[1..], sub))
  }

  /** `sub` occurs in `s` starting at position `i`. */
  predicate OccursAt(s: string, sub: string, i: int)
  {
    0 <= i <= |s| - |sub| && s[i..i + |sub|] == sub
  }

  /** `includes` is "occurs at some position". */
  lemma ContainsAt(s: string, sub: string)
    ensures Contains(s, sub) <==> exists i :: OccursAt(s, sub, i)
  {
    if Contains(s, sub) {
      var i := ContainsWitness(s, sub);
    }
    if exists i :: OccursAt(s, sub, i) {
      var i :| OccursAt(s, sub, i);
      OccursContains(s, sub, i);
    }
  }

  /** Where an included word starts. */
  lemma {:induction false} ContainsWitness(s: string, sub: string) returns (i: int)
    requires Contains(s, sub)
    ensures OccursAt(s, sub, i)
  {
    if sub <= s {
      i := 0;
    } else {
      var j := ContainsWitness(s[1..], sub);
      assert s[j + 1..j + 1 + |sub|] == s[1..][j..j + |sub|];
      i := j + 1;
    }
  }

  /** A word that occurs somewhere is included. */
  lemma {:induction false} OccursContains(s: string, sub: string, i: int)
    requires OccursAt(s, sub, i)
    ensures Contains(s, sub)
  {
    if i > 0 {
      assert s[1..][i - 1..i - 1 + |sub|] == s[i..i + |sub|];
      OccursContains(s[1..], sub, i - 1);
    } else {
      assert sub <= s;
    }
  }

  /** A message containing a word contains every prefix of it. */
  lemma {:induction false} ContainsPrefix(s: string, word: string, prefix: string)
    requires prefix <= word && Contains(s, word)
    ensures Contains(s, prefix)
  {
    if !(word <= s) {
      ContainsPrefix(s[1..], word, prefix);
    }
  }

  /** `keywords[category].some(kw => lowerMessage.includes(kw))`. */
  predicate AnyOf(s: string, words: seq<string>)
  {
    words != [] && (Contains(s, words[0]) || AnyOf(s, words[1..]))
  }

  lemma {:induction false} AnyOfMember(s: string, words: seq<string>, k: int)
    requires 0 <= k < |words| && Contains(s, words[k])
    ensures AnyOf(s, words)
  {
    if k > 0 {
      AnyOfMember(s, words[1..], k - 1);
    }
  }

  /** `toLowerCase` on ASCII and Latin-1 capitals (É, À, Ç, ...); every
      other character is left as it is. */
  function LowerChar(c: char): (d: char)
    ensures 'A' <= c <= 'Z' ==> d as int == c as int + 32
    ensures !('A' <= c <= 'Z') && !('À' <= c <= 'Þ' && c != '×') ==> d == c
  {
    if 'A' <= c <= 'Z' || ('À' <= c <= 'Þ' && c != '×') then (c as int + 32) as char
    else c
  }

  function Lower(s: string): (r: string)
    ensures |r| == |s| && forall i :: 0 <= i < |s| ==> r[i] == LowerChar(s[i])
  {
    if s == [] then [] else [LowerChar(s[0])] + Lower(s[1..])
  }

  // ---------------------------------------------------------------- keywords

  const Nis2Words: seq<string> := ["nis2", "nis 2", "nis-2", "directive nis"]
  const RgpdWords: seq<string> := ["rgpd", "gdpr", "données personnelles", "protection des données"]
  const CyberWords: seq<string> := ["cyberattaque", "ransomware", "phishing", "piratage", "hack", "sécurité informatique"]
  const AuditWords: seq<string> := ["audit", "évaluation", "diagnostic", "test", "analyse"]
  const TrainingWords: seq<string> := ["formation", "sensibilisation", "apprentissage", "cours", "module"]
  const UrgentWords: seq<string> := ["urgent", "rapide", "vite", "immédiat"]
  const SectorWords: seq<string> := ["secteur", "industrie", "domaine", "activité"]
  const SanctionWords: seq<string> := ["sanction", "amende", "pénalité", "condamnation"]
  const AppWords: seq<string> := ["application", "plateforme", "app", "site", "fonctionnement",
                                  "comment utiliser", "comment ça marche", "tableau de bord", "dashboard"]
  const BlogWords: seq<string> := ["blog", "newsletter", "article", "actu", "actualité", "abonnement"]

  /** The phrases tested with bare `includes` inside or after the lists. */
  const Nis2DefinitionWords: seq<string> := ["c'est quoi", "qu'est-ce", "définition"]
  const Nis2SectorExtra: seq<string> := ["concerne", "qui doit"]
  const ObligationWords: seq<string> := ["obligation", "faire", "mettre en place"]
  const Nis2SanctionExtra: seq<string> := ["risque", "pénalité"]
  const DeadlineWords: seq<string> := ["délai", "temps"]
  const RgpdDefinitionWords: seq<string> := ["c'est quoi", "définition"]
  const DpoWords: seq<string> := ["dpo", "délégué"]
  const PriceWords: seq<string> := ["prix", "tarif", "coût", "combien"]
  const ContactWords: seq<string> := ["contact", "rdv", "rendez-vous", "appel"]
  const GreetingWords: seq<string> := ["bonjour", "salut", "hello", "bonsoir"]

  // ---------------------------------------------------------------- dispatch

  datatype Reply =
    | AppGuide | BlogNews
    | Nis2Definition | Nis2Sectors | Nis2Obligations | Nis2Sanctions | Nis2Deadlines | Nis2Overview
    | RgpdDefinition | RgpdSanctions | RgpdDpo | RgpdOverview
    | Threats | TrainingOffer | AuditOffer | Pricing | ContactInfo | Greeting | Fallback

  /** The NIS 2 sub-branches, in source order. */
  function Nis2Reply(m: string): Reply
  {
    if AnyOf(m, Nis2DefinitionWords) then Nis2Definition
    else if AnyOf(m, SectorWords) || AnyOf(m, Nis2SectorExtra) then Nis2Sectors
    else if AnyOf(m, ObligationWords) then Nis2Obligations
    else if AnyOf(m, SanctionWords) || AnyOf(m, Nis2SanctionExtra) then Nis2Sanctions
    else if AnyOf(m, DeadlineWords) || AnyOf(m, UrgentWords) then Nis2Deadlines
    else Nis2Overview
  }

  /** The RGPD sub-branches, in source order. */
  function RgpdReply(m: string): Reply
  {
    if AnyOf(m, RgpdDefinitionWords) then RgpdDefinition
    else if AnyOf(m, SanctionWords) then RgpdSanctions
    else if AnyOf(m, DpoWords) then RgpdDpo
    else RgpdOverview
  }

  /** `getAIResponse`. */
  function GetAIResponse(message: string): (r: Reply)
    ensures r == AppGuide <==> AnyOf(Lower(message), AppWords)
    ensures r == Fallback <==> NoCategory(Lower(message))
  {
    var m := Lower(message);
    if AnyOf(m, AppWords) then AppGuide
    else if AnyOf(m, BlogWords) then BlogNews
    else if AnyOf(m, Nis2Words) then Nis2Reply(m)
    else if AnyOf(m, RgpdWords) then RgpdReply(m)
    else if AnyOf(m, CyberWords) then Threats
    else if AnyOf(m, TrainingWords) then TrainingOffer
    else if AnyOf(m, AuditWords) then AuditOffer
    else if AnyOf(m, PriceWords) then Pricing
    else if AnyOf(m, ContactWords) then ContactInfo
    else if AnyOf(m, GreetingWords) then Greeting
    else Fallback
  }

  /** No list of the top-level chain matches. */
  predicate NoCategory(m: string)
  {
    !AnyOf(m, AppWords) && !AnyOf(m, BlogWords) && !AnyOf(m, Nis2Words) && !AnyOf(m, RgpdWords)
    && !AnyOf(m, CyberWords) && !AnyOf(m, TrainingWords) && !AnyOf(m, AuditWords)
    && !AnyOf(m, PriceWords) && !AnyOf(m, ContactWords) && !AnyOf(m, GreetingWords)
  }

  // ---------------------------------------------------------------- reference table

  /** A row of the priority table: every group must have a keyword in the
      message. */
  datatype Rule = Rule(groups: seq<seq<string>>, reply: Reply)

  predicate AllGroups(m: string, groups: seq<seq<string>>)
  {
    groups == [] || (AnyOf(m, groups[0]) && AllGroups(m, groups[1..]))
  }

  /** The first row whose groups all match, or the default answer. */
  function FirstMatch(m: string, rules: seq<Rule>): Reply
  {
    if rules == [] then Fallback
    else if AllGroups(m, rules[0].groups) then rules[0].reply
    else FirstMatch(m, rules[1..])
  }

  /** The NIS 2 rows: each also needs a NIS 2 keyword. */
  function Nis2Rules(): seq<Rule>
  {
    [ Rule([Nis2Words, Nis2DefinitionWords], Nis2Definition),
      Rule([Nis2Words, SectorWords + Nis2SectorExtra], Nis2Sectors),
      Rule([Nis2Words, ObligationWords], Nis2Obligations),
      Rule([Nis2Words, SanctionWords + Nis2SanctionExtra], Nis2Sanctions),
      Rule([Nis2Words, DeadlineWords + UrgentWords], Nis2Deadlines),
      Rule([Nis2Words], Nis2Overview) ]
  }

  /** The RGPD rows: each also needs an RGPD keyword. */
  function RgpdRules(): seq<Rule>
  {
    [ Rule([RgpdWords, RgpdDefinitionWords], RgpdDefinition),
      Rule([RgpdWords, SanctionWords], RgpdSanctions),
      Rule([RgpdWords, DpoWords], RgpdDpo),
      Rule([RgpdWords], RgpdOverview) ]
  }

  /** The single-list rows after RGPD. */
  function TailRules(): seq<Rule>
  {
    [ Rule([CyberWords], Threats),
      Rule([TrainingWords], TrainingOffer),
      Rule([AuditWords], AuditOffer),
      Rule([PriceWords], Pricing),
      Rule([ContactWords], ContactInfo),
      Rule([GreetingWords], Greeting) ]
  }

  /** The priority order written as one flat table. */
  function Table(): seq<Rule>
  {
    [Rule([AppWords], AppGuide), Rule([BlogWords], BlogNews)] + Nis2Rules() + RgpdRules() + TailRules()
  }

  /** No row of a table answers with the default. */
  ghost predicate Answers(rules: seq<Rule>)
  {
    forall k :: 0 <= k < |rules| ==> rules[k].reply != Fallback
  }

  /** Searching two tables in turn: the second is reached only when no row
      of the first matches. */
  lemma {:induction false} FirstMatchAppend(m: string, a: seq<Rule>, b: seq<Rule>)
    requires Answers(a)
    ensures FirstMatch(m, a + b) == if FirstMatch(m, a) != Fallback then FirstMatch(m, a) else FirstMatch(m, b)
  {
    if a == [] {
      assert a + b == b;
    } else {
      assert (a + b)[0] == a[0] && (a + b)[1..] == a[1..] + b;
      FirstMatchAppend(m, a[1..], b);
    }
  }

  lemma {:induction false} AnyOfAppend(m: string, a: seq<string>, b: seq<string>)
    ensures AnyOf(m, a + b) <==> AnyOf(m, a) || AnyOf(m, b)
  {
    if a != [] {
      assert (a + b)[0] == a[0] && (a + b)[1..] == a[1..] + b;
      AnyOfAppend(m, a[1..], b);
    } else {
      assert a + b == b;
    }
  }

  lemma GroupsOfOne(m: string, a: seq<string>)
    ensures AllGroups(m, [a]) <==> AnyOf(m, a)
  {
    assert [a][1..] == [];
  }

  lemma GroupsOfTwo(m: string, a: seq<string>, b: seq<string>)
    ensures AllGroups(m, [a, b]) <==> AnyOf(m, a) && AnyOf(m, b)
  {
    assert [a, b][1..] == [b];
    GroupsOfOne(m, b);
  }

  /** One row of a table at a time. */
  lemma FirstMatchCons(m: string, r: Rule, rest: seq<Rule>)
    ensures FirstMatch(m, [r] + rest) == if AllGroups(m, r.groups) then r.reply else FirstMatch(m, rest)
  {
    assert ([r] + rest)[1..] == rest;
  }

  lemma Nis2Rows(m: string)
    ensures FirstMatch(m, Nis2Rules()) == if AnyOf(m, Nis2Words) then Nis2Reply(m) else Fallback
  {
    AnyOfAppend(m, SectorWords, Nis2SectorExtra);
    AnyOfAppend(m, SanctionWords, Nis2SanctionExtra);
    AnyOfAppend(m, DeadlineWords, UrgentWords);
    var t := Nis2Rules();
    GroupsOfTwo(m, Nis2Words, Nis2DefinitionWords);
    GroupsOfTwo(m, Nis2Words, SectorWords + Nis2SectorExtra);
    GroupsOfTwo(m, Nis2Words, ObligationWords);
    GroupsOfTwo(m, Nis2Words, SanctionWords + Nis2SanctionExtra);
    GroupsOfTwo(m, Nis2Words, DeadlineWords + UrgentWords);
    GroupsOfOne(m, Nis2Words);
    FirstMatchCons(m, t[5], []);
    assert t[5..] == [t[5]] + [];
    FirstMatchCons(m, t[4], t[5..]);
    assert t[4..] == [t[4]] + t[5..];
    FirstMatchCons(m, t[3], t[4..]);
    assert t[3..] == [t[3]] + t[4..];
    FirstMatchCons(m, t[2], t[3..]);
    assert t[2..] == [t[2]] + t[3..];
    FirstMatchCons(m, t[1], t[2..]);
    assert t[1..] == [t[1]] + t[2..];
    FirstMatchCons(m, t[0], t[1..]);
    assert t == [t[0]] + t[1..];
  }

  lemma RgpdRows(m: string)
    ensures FirstMatch(m, RgpdRules()) == if AnyOf(m, RgpdWords) then RgpdReply(m) else Fallback
  {
    var t := RgpdRules();
    GroupsOfTwo(m, RgpdWords, RgpdDefinitionWords);
    GroupsOfTwo(m, RgpdWords, SanctionWords);
    GroupsOfTwo(m, RgpdWords, DpoWords);
    GroupsOfOne(m, RgpdWords);
    FirstMatchCons(m, t[3], []);
    assert t[3..] == [t[3]] + [];
    FirstMatchCons(m, t[2], t[3..]);
    assert t[2..] == [t[2]] + t[3..];
    FirstMatchCons(m, t[1], t[2..]);
    assert t[1..] == [t[1]] + t[2..];
    FirstMatchCons(m, t[0], t[1..]);
    assert t == [t[0]] + t[1..];
  }

  lemma TailRows(m: string)
    ensures FirstMatch(m, TailRules()) ==
      if AnyOf(m, CyberWords) then Threats
      else if AnyOf(m, TrainingWords) then TrainingOffer
      else if AnyOf(m, AuditWords) then AuditOffer
      else if AnyOf(m, PriceWords) then Pricing
      else if AnyOf(m, ContactWords) then ContactInfo
      else if AnyOf(m, GreetingWords) then Greeting
      else Fallback
  {
    var r6 := [Rule([GreetingWords], Greeting)];
    var r5 := [Rule([ContactWords], ContactInfo)] + r6;
    var r4 := [Rule([PriceWords], Pricing)] + r5;
    var r3 := [Rule([AuditWords], AuditOffer)] + r4;
    var r2 := [Rule([TrainingWords], TrainingOffer)] + r3;
    var r1 := [Rule([CyberWords], Threats)] + r2;
    assert r6 == r6 + [];
    SingleRow(m, GreetingWords, Greeting, []);
    SingleRow(m, ContactWords, ContactInfo, r6);
    SingleRow(m, PriceWords, Pricing, r5);
    SingleRow(m, AuditWords, AuditOffer, r4);
    SingleRow(m, TrainingWords, TrainingOffer, r3);
    SingleRow(m, CyberWords, Threats, r2);
    assert TailRules() == r1;
  }

  /** A row with one keyword list. */
  lemma SingleRow(m: string, words: seq<string>, reply: Reply, rest: seq<Rule>)
    ensures FirstMatch(m, [Rule([words], reply)] + rest) == if AnyOf(m, words) then reply else FirstMatch(m, rest)
  {
    GroupsOfOne(m, words);
    FirstMatchCons(m, Rule([words], reply), rest);
  }

  /** The two rows in front of NIS 2. */
  lemma HeadRows(m: string, rest: seq<Rule>)
    ensures FirstMatch(m, [Rule([AppWords], AppGuide), Rule([BlogWords], BlogNews)] + rest) ==
      if AnyOf(m, AppWords) then AppGuide else if AnyOf(m, BlogWords) then BlogNews else FirstMatch(m, rest)
  {
    var a := Rule([AppWords], AppGuide);
    var b := Rule([BlogWords], BlogNews);
    GroupsOfOne(m, AppWords);
    GroupsOfOne(m, BlogWords);
    FirstMatchCons(m, b, rest);
    FirstMatchCons(m, a, [b] + rest);
    assert [a, b] + rest == [a] + ([b] + rest);
  }

  /** Every NIS 2 and RGPD row has a reply of its own. */
  lemma NamedReplies()
    ensures Answers(Nis2Rules() + RgpdRules())
  {
    var t := Nis2Rules() + RgpdRules();
    assert t == Nis2Rules() + RgpdRules();
    assert forall k :: 0 <= k < 6 ==> t[k] == Nis2Rules()[k];
    assert forall k :: 6 <= k < 10 ==> t[k] == RgpdRules()[k - 6];
  }

  /** The NIS 2 rows, then the RGPD rows. */
  lemma RegulationRows(m: string)
    ensures FirstMatch(m, Nis2Rules() + RgpdRules()) ==
      if AnyOf(m, Nis2Words) then Nis2Reply(m)
      else if AnyOf(m, RgpdWords) then RgpdReply(m)
      else Fallback
  {
    Nis2Rows(m);
    RgpdRows(m);
    assert Answers(Nis2Rules());
    FirstMatchAppend(m, Nis2Rules(), RgpdRules());
  }

  /** The NIS 2 and RGPD rows in front of the single-list rows. */
  lemma MiddleRows(m: string)
    ensures FirstMatch(m, Nis2Rules() + RgpdRules() + TailRules()) ==
      if AnyOf(m, Nis2Words) then Nis2Reply(m)
      else if AnyOf(m, RgpdWords) then RgpdReply(m)
      else FirstMatch(m, TailRules())
  {
    var a := Nis2Rules() + RgpdRules();
    RegulationRows(m);
    NamedReplies();
    FirstMatchAppend(m, a, TailRules());
  }

  /** The if-chain and the table give the same reply for every message. */
  lemma DispatchIsFirstMatch(message: string)
    ensures GetAIResponse(message) == FirstMatch(Lower(message), Table())
  {
    var m := Lower(message);
    var rest := Nis2Rules() + RgpdRules() + TailRules();
    assert Table() == [Rule([AppWords], AppGuide), Rule([BlogWords], BlogNews)] + rest;
    HeadRows(m, rest);
    MiddleRows(m);
    TailRows(m);
  }

  // ---------------------------------------------------------------- shadowing

  /** Any message with "app" in it, "rapport" or "apprentissage" say, gets
      the application guide, whatever else it asks. */
  lemma AppShadowsAll(message: string)
    requires Contains(Lower(message), "app")
    ensures GetAIResponse(message) == AppGuide
  {
    AnyOfMember(Lower(message), AppWords, 2);
  }

  /** The contact keyword "appel" and the training keyword "apprentissage"
      can never select their own category: both contain "app". */
  lemma DeadKeywords(message: string)
    ensures Contains(Lower(message), "appel") ==> GetAIResponse(message) == AppGuide
    ensures Contains(Lower(message), "apprentissage") ==> GetAIResponse(message) == AppGuide
  {
    var m := Lower(message);
    if Contains(m, "appel") {
      ContainsPrefix(m, "appel", "app");
      AppShadowsAll(message);
    }
    if Contains(m, "apprentissage") {
      ContainsPrefix(m, "apprentissage", "app");
      AppShadowsAll(message);
    }
  }
}
