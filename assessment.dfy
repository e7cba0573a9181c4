/** What the NIS2 and ISO 27001 self-assessment wizards have in common: the
    five steps, the draft record, the measure catalogue shape, the checklist
    sub-component with its set of checked ids, and the save guard. */
module Assessment {

  /** The wizard's `step` state. */
  datatype Step = Start | Sector | Size | Readiness | Result

  /** One entry of a measure catalogue. */
  datatype Measure = Measure(id: string, category: string, title: string)

  /** A sector button: its display name and its tier code. */
  datatype SectorOption = SectorOption(name: string, sectorType: string)

  /** The wizard's `data` record; also what a save sends (no framework tag). */
  datatype Draft = Draft(
    sectorName: string,
    sectorType: string,
    size: string,
    readinessScore: int,
    missingItems: seq<string>)

  const EmptyDraft: Draft := Draft("", "", "", 0, [])

  /** `handleBack`: one step back, nothing at `Start`. */
  function Back(step: Step): (prev: Step)
  {
    match step
    case Result => Readiness
    case Readiness => Size
    case Size => Sector
    case Sector => Start
    case Start => Start
  }

  /** Position of a step in the forward order. */
  function Index(step: Step): nat
  {
    match step
    case Start => 0
    case Sector => 1
    case Size => 2
    case Readiness => 3
    case Result => 4
  }

  /** Back moves exactly one position towards `Start` and stops there. */
  lemma BackOneStep(step: Step)
    ensures step == Start ==> Back(step) == Start
    ensures step != Start ==> Index(Back(step)) + 1 == Index(step)
  {
  }

  // ---------------------------------------------------------------- sectors

  /** The nine "Secteurs Hautement Critiques" buttons (both wizards list the same). */
  const HighCriticality: seq<SectorOption> := [
    SectorOption("Énergie", "critical"),
    SectorOption("Transports", "critical"),
    SectorOption("Banque & Finance", "critical"),
    SectorOption("Santé", "critical"),
    SectorOption("Eau", "critical"),
    SectorOption("Numérique", "critical"),
    SectorOption("Services TIC", "critical"),
    SectorOption("Administration", "critical"),
    SectorOption("Espace", "critical")
  ]

  /** The seven "Autres Secteurs Régulés" buttons. */
  const OtherRegulated: seq<SectorOption> := [
    SectorOption("Services Postaux", "important"),
    SectorOption("Déchets", "important"),
    SectorOption("Chimie", "important"),
    SectorOption("Agroalimentaire", "important"),
    SectorOption("Industrie", "important"),
    SectorOption("Fournisseurs Web", "important"),
    SectorOption("Recherche", "important")
  ]

  /** "Mon activité n'est pas dans la liste". */
  const OutOfList: SectorOption := SectorOption("Autre", "none")

  /** Every sector a user can pick: the two lists and the out-of-list button. */
  ghost predicate Offered(s: SectorOption)
  {
    s in HighCriticality || s in OtherRegulated || s == OutOfList
  }

  /** The size buttons: "Grande", "Moyenne", "Petite / Micro" entreprise. */
  const SizeCodes: seq<string> := ["large", "medium", "small"]

  /** Each list carries a single tier code, and only the extra button is "none". */
  lemma SectorTiers(s: SectorOption)
    requires Offered(s)
    ensures s in HighCriticality <==> s.sectorType == "critical"
    ensures s in OtherRegulated <==> s.sectorType == "important"
    ensures s.sectorType == "none" <==> s == OutOfList
  {
  }

  // ---------------------------------------------------------------- result page

  /** Colour of the score ring. */
  datatype Ring = Red | Yellow | Emerald

  function RingColour(pct: int): (c: Ring)
    ensures c == Red <==> pct < 50
    ensures c == Emerald <==> pct >= 80
  {
    if pct < 50 then Red else if pct < 80 then Yellow else Emerald
  }

  /** The "Failles" box: shown only while the score is below the number of
      measures; the first three missing labels, and how many more the
      "...et N autres" line counts (0 when the line is not shown). */
  function FaultPreview(score: int, total: int, missing: seq<string>): (r: (bool, seq<string>, nat))
    ensures r.0 <==> score < total
    ensures r.1 <= missing && |r.1| == if |missing| <= 3 then |missing| else 3
    ensures |r.1| + r.2 == |missing|
    ensures r.2 > 0 <==> |missing| > 3
  {
    var shown := score < total;
    if |missing| <= 3 then (shown, missing, 0) else (shown, missing[..3], |missing| - 3)
  }

  // ---------------------------------------------------------------- catalogue

  function Ids(catalog: seq<Measure>): set<string>
  {
    if catalog == [] then {} else {catalog[0].id} + Ids(catalog[1..])
  }

  lemma {:induction false} IdsMember(catalog: seq<Measure>, i: int)
    requires 0 <= i < |catalog|
    ensures catalog[i].id in Ids(catalog)
  {
    if i > 0 {
      IdsMember(catalog[1..], i - 1);
    }
  }

  lemma {:induction false} NotInIds(catalog: seq<Measure>, id: string)
    requires forall i :: 0 <= i < |catalog| ==> catalog[i].id != id
    ensures id !in Ids(catalog)
  {
    if catalog != [] {
      NotInIds(catalog[1..], id);
    }
  }

  ghost predicate DistinctIds(catalog: seq<Measure>)
  {
    forall i, j :: 0 <= i < j < |catalog| ==> catalog[i].id != catalog[j].id
  }

  ghost predicate DistinctLabels(catalog: seq<Measure>)
  {
    forall i, j :: 0 <= i < j < |catalog| ==> catalog[i].title != catalog[j].title
  }

  /** The catalogue entries of one category, in catalogue order (the
      `filter(m => m.type === ...)` that lays out the two checklist columns). */
  function InCategory(catalog: seq<Measure>, category: string): (r: seq<Measure>)
    ensures |r| <= |catalog|
    ensures forall m :: m in r <==> m in catalog && m.category == category
  {
    if catalog == [] then [] else
      (if catalog[0].category == category then [catalog[0]] else [])
      + InCategory(catalog[1..], category)
  }

  lemma {:induction false} InCategoryAppend(a: seq<Measure>, b: seq<Measure>, category: string)
    ensures InCategory(a + b, category) == InCategory(a, category) + InCategory(b, category)
  {
    if a == [] {
      assert a + b == b;
    } else {
      assert (a + b)[0] == a[0] && (a + b)[1..] == a[1..] + b;
      InCategoryAppend(a[1..], b, category);
      var head := if a[0].category == category then [a[0]] else [];
      assert InCategory(a + b, category) == head + InCategory(a[1..] + b, category);
      assert head + (InCategory(a[1..], category) + InCategory(b, category))
          == (head + InCategory(a[1..], category)) + InCategory(b, category);
    }
  }

  /** A block of one category is kept whole by its own filter and dropped by
      the other's. */
  lemma {:induction false} InCategoryUniform(c: seq<Measure>, category: string, other: string)
    requires forall i :: 0 <= i < |c| ==> c[i].category == category
    requires other != category
    ensures InCategory(c, category) == c
    ensures InCategory(c, other) == []
  {
    if c != [] {
      InCategoryUniform(c[1..], category, other);
    }
  }

  /** A catalogue made of a block of `first` followed by a block of `second`
      splits into exactly those two columns. */
  lemma Columns(catalog: seq<Measure>, k: nat, first: string, second: string)
    requires k <= |catalog| && first != second
    requires forall i :: 0 <= i < k ==> catalog[i].category == first
    requires forall i :: k <= i < |catalog| ==> catalog[i].category == second
    ensures InCategory(catalog, first) == catalog[..k]
    ensures InCategory(catalog, second) == catalog[k..]
  {
    assert catalog == catalog[..k] + catalog[k..];
    InCategoryAppend(catalog[..k], catalog[k..], first);
    InCategoryAppend(catalog[..k], catalog[k..], second);
    InCategoryUniform(catalog[..k], first, second);
    InCategoryUniform(catalog[k..], second, first);
  }

  // ---------------------------------------------------------------- checklist

  /** `toggle`: copy the set, then delete the id if present, else add it. */
  function Toggled(checked: set<string>, id: string): (r: set<string>)
    ensures id in r <==> id !in checked
    ensures r - {id} == checked - {id}
  {
    if id in checked then checked - {id} else checked + {id}
  }

  /** Toggling the same id twice gives back the set. */
  lemma ToggleInvolutive(checked: set<string>, id: string)
    ensures Toggled(Toggled(checked, id), id) == checked
  {
  }

  /** Toggling moves the score (the set's size) by exactly one. */
  lemma ToggleScore(checked: set<string>, id: string)
    ensures id in checked ==> |Toggled(checked, id)| == |checked| - 1
    ensures id !in checked ==> |Toggled(checked, id)| == |checked| + 1
  {
  }

  /** `handleFinish`'s missing list: labels of unchecked measures, catalogue order. */
  function MissingLabels(catalog: seq<Measure>, checked: set<string>): (r: seq<string>)
    ensures |r| <= |catalog|
  {
    if catalog == [] then [] else
      (if catalog[0].id in checked then [] else [catalog[0].title])
      + MissingLabels(catalog[1..], checked)
  }

  /** With distinct ids, the missing list and the checked ids of the catalogue
      together account for every measure exactly once. */
  lemma {:induction false} MissingCount(catalog: seq<Measure>, checked: set<string>)
    requires DistinctIds(catalog)
    ensures |MissingLabels(catalog, checked)| + |checked * Ids(catalog)| == |catalog|
  {
    if catalog != [] {
      var m, rest := catalog[0], catalog[1..];
      assert DistinctIds(rest);
      MissingCount(rest, checked);
      NotInIds(rest, m.id);
      var inRest := checked * Ids(rest);
      assert Ids(catalog) == {m.id} + Ids(rest);
      if m.id in checked {
        assert checked * Ids(catalog) == inRest + {m.id};
        assert m.id !in inRest;
        assert |inRest + {m.id}| == |inRest| + 1;
      } else {
        assert checked * Ids(catalog) == inRest;
      }
    }
  }

  /** The complement property: score plus missing count is the catalogue size. */
  lemma MissingComplement(catalog: seq<Measure>, checked: set<string>)
    requires DistinctIds(catalog) && checked <= Ids(catalog)
    ensures |MissingLabels(catalog, checked)| + |checked| == |catalog|
  {
    MissingCount(catalog, checked);
    assert checked * Ids(catalog) == checked;
  }

  /** With distinct labels, a measure's label is listed exactly when its id is
      unchecked. */
  lemma {:induction false} MissingMembers(catalog: seq<Measure>, checked: set<string>, i: int)
    requires DistinctLabels(catalog) && 0 <= i < |catalog|
    ensures catalog[i].title in MissingLabels(catalog, checked) <==> catalog[i].id !in checked
  {
    var rest := catalog[1..];
    assert DistinctLabels(rest);
    if i == 0 {
      LabelNotListed(rest, checked, catalog[0].title);
    } else {
      MissingMembers(rest, checked, i - 1);
    }
  }

  lemma {:induction false} LabelNotListed(catalog: seq<Measure>, checked: set<string>, title: string)
    requires forall j :: 0 <= j < |catalog| ==> catalog[j].title != title
    ensures title !in MissingLabels(catalog, checked)
  {
    if catalog != [] {
      LabelNotListed(catalog[1..], checked, title);
    }
  }

  /** Checking everything leaves nothing missing; checking nothing lists every label. */
  lemma {:induction false} MissingExtremes(catalog: seq<Measure>)
    ensures MissingLabels(catalog, Ids(catalog)) == []
    ensures |MissingLabels(catalog, {})| == |catalog|
  {
    if catalog != [] {
      MissingExtremes(catalog[1..]);
      MissingSuperset(catalog[1..], Ids(catalog[1..]), Ids(catalog));
    }
  }

  lemma {:induction false} MissingSuperset(catalog: seq<Measure>, small: set<string>, big: set<string>)
    requires small <= big && MissingLabels(catalog, small) == []
    ensures MissingLabels(catalog, big) == []
  {
    if catalog != [] {
      MissingSuperset(catalog[1..], small, big);
    }
  }

  /** The `ReadinessCheck` sub-component: it exists only while the wizard is at
      the readiness step, and starts with nothing checked each time it does. */
  class ReadinessCheck {
    const catalog: seq<Measure>
    var checked: set<string>

    ghost predicate Valid()
      reads this
    {
      DistinctIds(catalog) && checked <= Ids(catalog)
    }

    constructor (catalog: seq<Measure>)
      requires DistinctIds(catalog)
      ensures Valid() && this.catalog == catalog && checked == {}
    {
      this.catalog := catalog;
      checked := {};
    }

    /** A measure's checkbox; only catalogue ids have one. */
    method Toggle(id: string)
      requires Valid() && id in Ids(catalog)
      modifies this
      ensures Valid()
      ensures checked == Toggled(old(checked), id)
    {
      var newChecked := checked;
      if id in newChecked {
        newChecked := newChecked - {id};
      } else {
        newChecked := newChecked + {id};
      }
      checked := newChecked;
    }

    /** "Calculer mon Score": the score is the set's size, the missing list the
        unchecked labels in catalogue order, and the two add up to the catalogue. */
    method HandleFinish() returns (score: nat, missing: seq<string>)
      requires Valid()
      ensures score == |checked|
      ensures missing == MissingLabels(catalog, checked)
      ensures |missing| + score == |catalog|
    {
      score := |checked|;
      missing := MissingLabels(catalog, checked);
      MissingComplement(catalog, checked);
    }
  }

  // ---------------------------------------------------------------- save guard

  /** The auto-save effect fires at `Result` when authenticated and not yet
      saved; `saveAudit` itself also needs a token. */
  predicate SaveAllowed(step: Step, authenticated: bool, hasToken: bool, auditSaved: bool)
  {
    step == Result && authenticated && hasToken && !auditSaved
  }
}
