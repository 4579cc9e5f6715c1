/**
 * Extraction of job records from the listing cards of a result page
 * (src/scrapers/indeed_scraper.py, lines 81-110).  A card is the text the
 * page exposes for the six selectors the scraper queries inside it; each
 * field is read with a two-selector fallback ending in the sentinel "N/A".
 */
module CardExtraction {
  import opened Wrappers
  import opened JsTrim

  /** The sentinel a field takes when neither selector yields text. */
  const NA: string := "N/A"

  /** Only the first MaxCards listing cards are read (job_cards[:5]). */
  const MaxCards: nat := 5

  /**
   * One listing card (div.job_seen_beacon or div.jobsearch-SerpJobCard).
   * Each Option is the innerText of the first element matching that
   * selector inside the card, None when no element matches.  evaluateRaises
   * says that one of the three job.evaluate calls raises for this card.
   */
  datatype Card = Card(
    h2JobTitle: Option<string>,         // h2.jobTitle
    h3JobTitle: Option<string>,         // h3.jobTitle
    spanCompanyName: Option<string>,    // span.companyName
    divCompanyInfo: Option<string>,     // div.companyInfo
    divCompanyLocation: Option<string>, // div.companyLocation
    spanLocation: Option<string>,       // span.location
    evaluateRaises: bool)

  /** The dictionary appended to results (lines 102-106). */
  datatype JobRecord = JobRecord(title: string, company: string, location: string)

  /**
   * `el.querySelector(sel)?.innerText?.trim()`, with undefined read as the
   * falsy "": falsy exactly when the element is missing or its text is all
   * white space, and otherwise starting and ending with a visible character.
   */
  function TrimmedText(element: Option<string>): (r: string)
    ensures r == "" <==> element.None? || forall k :: 0 <= k < |element.value| ==> IsTrimmable(element.value[k])
    ensures r != "" ==> !IsTrimmable(r[0]) && !IsTrimmable(r[|r| - 1])
  {
    match element
    case None => ""
    case Some(text) => TrimEmptyIff(text); Trim(text)
  }

  /**
   * `primary || secondary || 'N/A'` over the two trimmed texts: JavaScript's
   * || picks the first operand that is not falsy, and a string is falsy
   * exactly when it is empty.
   */
  function Field(primary: Option<string>, secondary: Option<string>): (r: string)
    ensures r != ""
    ensures TrimmedText(primary) != "" ==> r == TrimmedText(primary)
    ensures TrimmedText(primary) == "" && TrimmedText(secondary) != "" ==> r == TrimmedText(secondary)
    ensures TrimmedText(primary) == "" && TrimmedText(secondary) == "" ==> r == NA
    ensures !IsTrimmable(r[0]) && !IsTrimmable(r[|r| - 1])
  {
    var p, s := TrimmedText(primary), TrimmedText(secondary);
    if p != "" then p else if s != "" then s else NA
  }

  function Title(c: Card): string { Field(c.h2JobTitle, c.h3JobTitle) }
  function Company(c: Card): string { Field(c.spanCompanyName, c.divCompanyInfo) }
  function Location(c: Card): string { Field(c.divCompanyLocation, c.spanLocation) }

  /** What the scraper keeps of a record: a real title and no empty field. */
  predicate Kept(r: JobRecord)
  {
    r.title != NA && r.title != "" && r.company != "" && r.location != ""
  }

  /**
   * The body of the loop for one card: nothing when an evaluate call raises
   * (the except: continue) or when the title is the sentinel, the record otherwise.
   */
  function Extract(c: Card): (r: Option<JobRecord>)
    ensures r.Some? <==> !c.evaluateRaises && Title(c) != NA
    ensures r.Some? ==> Kept(r.value)
    ensures r.Some? ==> r.value.title == Title(c) && r.value.company == Company(c)
                        && r.value.location == Location(c)
  {
    if c.evaluateRaises then None
    else
      var title, company, location := Title(c), Company(c), Location(c);
      if title != NA then Some(JobRecord(title, company, location)) else None
  }

  /** The present values of xs, in order: what a loop that appends only on Some collects. */
  function Somes<T>(xs: seq<Option<T>>): seq<T>
    decreases |xs|
  {
    if xs == [] then []
    else Somes(xs[..|xs| - 1]) + (if xs[|xs| - 1].Some? then [xs[|xs| - 1].value] else [])
  }

  /** The per-card outcome of the loop body, card by card. */
  function Extracts(cs: seq<Card>): (r: seq<Option<JobRecord>>)
    ensures |r| == |cs|
  {
    seq(|cs|, k requires 0 <= k < |cs| => Extract(cs[k]))
  }

  /** The records extracted from cs, in card order (specification of the loop). */
  function KeptRecords(cs: seq<Card>): seq<JobRecord>
  {
    Somes(Extracts(cs))
  }

  /** job_cards[:5]: Python slicing clamps at the length. */
  function FirstCards(cs: seq<Card>): (r: seq<Card>)
    ensures |r| <= MaxCards && |r| <= |cs|
    ensures r == cs[..|r|]
    ensures |r| == if |cs| < MaxCards then |cs| else MaxCards
  {
    if |cs| <= MaxCards then cs else cs[..MaxCards]
  }

  /**
   * The for loop of lines 84-108 over the first five cards, with its
   * per-card try/except, and the final `results if results else []`.
   */
  method ProcessCards(jobCards: seq<Card>) returns (results: seq<JobRecord>)
    ensures results == KeptRecords(FirstCards(jobCards))
    ensures |results| <= MaxCards
    ensures forall k :: 0 <= k < |results| ==> Kept(results[k])
  {
    var first := FirstCards(jobCards);
    results := [];
    for i := 0 to |first|
      invariant results == KeptRecords(first[..i])
    {
      ghost var done := Extracts(first[..i + 1]);
      assert done[..i] == Extracts(first[..i]);
      var job := first[i];
      if job.evaluateRaises {
        continue;
      }
      var title := Field(job.h2JobTitle, job.h3JobTitle);
      var company := Field(job.spanCompanyName, job.divCompanyInfo);
      var location := Field(job.divCompanyLocation, job.spanLocation);
      if title != NA {
        results := results + [JobRecord(title, company, location)];
      }
    }
    assert first[..|first|] == first;
    KeptRecordsLength(first);
    KeptRecordsAreKept(first);
    if results == [] {
      results := [];
    }
  }

  // ---------------------------------------------------------------------
  // Properties of the collection of present values
  // ---------------------------------------------------------------------

  lemma {:induction false} SomesLength<T>(xs: seq<Option<T>>)
    ensures |Somes(xs)| <= |xs|
    decreases |xs|
  {
    if xs != [] { SomesLength(xs[..|xs| - 1]); }
  }

  lemma {:induction false} SomesAppend<T>(a: seq<Option<T>>, b: seq<Option<T>>)
    ensures Somes(a + b) == Somes(a) + Somes(b)
    decreases |b|
  {
    if b == [] {
      assert a + b == a;
    } else {
      var b' := b[..|b| - 1];
      assert (a + b)[..|a + b| - 1] == a + b';
      SomesAppend(a, b');
    }
  }

  lemma {:induction false} SomesAll<T>(xs: seq<Option<T>>)
    requires forall k :: 0 <= k < |xs| ==> xs[k].Some?
    ensures |Somes(xs)| == |xs|
    ensures forall k :: 0 <= k < |xs| ==> Somes(xs)[k] == xs[k].value
    decreases |xs|
  {
    if xs != [] {
      var init := xs[..|xs| - 1];
      SomesAll(init);
      assert Somes(xs) == Somes(init) + [xs[|xs| - 1].value];
    }
  }

  /** Positions of the present values of xs, increasing. */
  function SomeIndexes<T>(xs: seq<Option<T>>): seq<nat>
    decreases |xs|
  {
    if xs == [] then []
    else SomeIndexes(xs[..|xs| - 1]) + (if xs[|xs| - 1].Some? then [|xs| - 1] else [])
  }

  lemma {:induction false} SomesOrder<T>(xs: seq<Option<T>>)
    ensures |SomeIndexes(xs)| == |Somes(xs)|
    ensures forall k :: 0 <= k < |SomeIndexes(xs)| ==> SomeIndexes(xs)[k] < |xs|
    ensures forall k, l :: 0 <= k < l < |SomeIndexes(xs)| ==> SomeIndexes(xs)[k] < SomeIndexes(xs)[l]
    ensures forall k :: 0 <= k < |SomeIndexes(xs)| ==> xs[SomeIndexes(xs)[k]] == Some(Somes(xs)[k])
    ensures forall j :: 0 <= j < |xs| && j !in SomeIndexes(xs) ==> xs[j].None?
    decreases |xs|
  {
    if xs != [] {
      var init := xs[..|xs| - 1];
      SomesOrder(init);
      assert forall j :: 0 <= j < |init| ==> xs[j] == init[j];
    }
  }

  // ---------------------------------------------------------------------
  // Properties of the extraction
  // ---------------------------------------------------------------------

  lemma ExtractsAppend(a: seq<Card>, b: seq<Card>)
    ensures Extracts(a + b) == Extracts(a) + Extracts(b)
  {
    var l, r := Extracts(a + b), Extracts(a) + Extracts(b);
    forall k | 0 <= k < |l| ensures l[k] == r[k] {
      if k < |a| { assert (a + b)[k] == a[k]; } else { assert (a + b)[k] == b[k - |a|]; }
    }
  }

  /** At most one record per card. */
  lemma KeptRecordsLength(cs: seq<Card>)
    ensures |KeptRecords(cs)| <= |cs|
  {
    SomesLength(Extracts(cs));
  }

  /**
   * The records are exactly the extracts of the cards at SomeIndexes, in
   * increasing card order, and every card not among them yields nothing.
   */
  lemma KeptRecordsOrder(cs: seq<Card>)
    ensures var src := SomeIndexes(Extracts(cs));
      |src| == |KeptRecords(cs)|
      && (forall k :: 0 <= k < |src| ==> src[k] < |cs|)
      && (forall k, l :: 0 <= k < l < |src| ==> src[k] < src[l])
      && (forall k :: 0 <= k < |src| ==> Extract(cs[src[k]]) == Some(KeptRecords(cs)[k]))
      && (forall j :: 0 <= j < |cs| && j !in src ==> Extract(cs[j]).None?)
  {
    SomesOrder(Extracts(cs));
  }

  /** Every record has a non-sentinel title and non-empty fields. */
  lemma KeptRecordsAreKept(cs: seq<Card>)
    ensures forall k :: 0 <= k < |KeptRecords(cs)| ==> Kept(KeptRecords(cs)[k])
  {
    KeptRecordsOrder(cs);
    var src := SomeIndexes(Extracts(cs));
    forall k | 0 <= k < |KeptRecords(cs)| ensures Kept(KeptRecords(cs)[k]) {
      assert Extract(cs[src[k]]) == Some(KeptRecords(cs)[k]);
    }
  }

  /**
   * A card whose evaluation raises is skipped without disturbing the
   * others: the records before it are kept and the cards after it still count.
   */
  lemma KeptRecordsSkipRaising(cs: seq<Card>, i: nat)
    requires i < |cs| && cs[i].evaluateRaises
    ensures KeptRecords(cs) == KeptRecords(cs[..i]) + KeptRecords(cs[i + 1..])
  {
    assert cs == cs[..i] + [cs[i]] + cs[i + 1..];
    ExtractsAppend(cs[..i] + [cs[i]], cs[i + 1..]);
    ExtractsAppend(cs[..i], [cs[i]]);
    var e := Extracts([cs[i]]);
    assert e == [None];
    SomesAppend(Extracts(cs[..i]) + e, Extracts(cs[i + 1..]));
    SomesAppend(Extracts(cs[..i]), e);
    assert Somes(e) == [] by { assert e[..0] == []; }
  }

  /** When every card yields a record, there is one record per card, in order. */
  lemma KeptRecordsAll(cs: seq<Card>)
    requires forall k :: 0 <= k < |cs| ==> Extract(cs[k]).Some?
    ensures |KeptRecords(cs)| == |cs|
    ensures forall k :: 0 <= k < |cs| ==> KeptRecords(cs)[k] == Extract(cs[k]).value
  {
    SomesAll(Extracts(cs));
  }

  /** A card with a title but no company or location text still yields a record. */
  lemma MissingCompanyKept(c: Card)
    requires !c.evaluateRaises && Title(c) != NA
    requires TrimmedText(c.spanCompanyName) == "" && TrimmedText(c.divCompanyInfo) == ""
    ensures Extract(c) == Some(JobRecord(Title(c), NA, Location(c)))
  {
  }

  /** A card whose title text is literally "N/A" is dropped like one with no title. */
  lemma LiteralNATitleDropped(c: Card)
    requires TrimmedText(c.h2JobTitle) == NA
    ensures Extract(c) == None
  {
  }

  /** Of seven cards that all yield records, exactly the first five are returned. */
  lemma SevenCardsFive(cs: seq<Card>)
    requires |cs| == 7
    requires forall k :: 0 <= k < |cs| ==> Extract(cs[k]).Some?
    ensures |KeptRecords(FirstCards(cs))| == MaxCards
    ensures forall k :: 0 <= k < MaxCards ==> KeptRecords(FirstCards(cs))[k] == Extract(cs[k]).value
  {
    KeptRecordsAll(FirstCards(cs));
  }
}
