/**
 * The search URL that fetch_jobs_indeed builds from a job query
 * (src/scrapers/indeed_scraper.py, lines 7-9).  The only encoding the
 * scraper applies is the space rule of application/x-www-form-urlencoded
 * (WHATWG URL Standard, section 5): every space becomes '+'.  Nothing else
 * is percent-encoded, so ',', '&' and non-ASCII characters pass through.
 */
module SearchUrl {
  import opened Wrappers

  /** The five query fields, as the scraper receives them. */
  datatype JobQuery = JobQuery(
    domain: string,
    skills: seq<string>,
    experience: int,
    country: string,
    city: string)

  const BaseUrl: string := "https://ae.indeed.com/jobs?q="
  const LocationKey: string := "&l="

  // ---------------------------------------------------------------------
  // str.replace(' ', '+') and its inverse under form decoding
  // ---------------------------------------------------------------------

  /** Python's s.replace(' ', '+'): every space, and nothing else, becomes '+'. */
  function ReplaceSpaces(s: string): (r: string)
    ensures ' ' !in r
  {
    seq(|s|, i requires 0 <= i < |s| => if s[i] == ' ' then '+' else s[i])
  }

  /** Decoding of '+' alone: every '+' is read back as a space, nothing else changes. */
  function PlusToSpace(s: string): (r: string)
    ensures '+' !in r
  {
    seq(|s|, i requires 0 <= i < |s| => if s[i] == '+' then ' ' else s[i])
  }

  /** Replacing spaces commutes with concatenation. */
  lemma ReplaceSpacesAppend(a: string, b: string)
    ensures ReplaceSpaces(a + b) == ReplaceSpaces(a) + ReplaceSpaces(b)
  {
    var l, r := ReplaceSpaces(a + b), ReplaceSpaces(a) + ReplaceSpaces(b);
    forall i | 0 <= i < |l| ensures l[i] == r[i] {
      if i < |a| { assert (a + b)[i] == a[i]; } else { assert (a + b)[i] == b[i - |a|]; }
    }
  }

  /** A text without '+' survives encoding followed by form decoding. */
  lemma DecodeEncoded(s: string)
    requires '+' !in s
    ensures PlusToSpace(ReplaceSpaces(s)) == s
  {
    var r := PlusToSpace(ReplaceSpaces(s));
    forall i | 0 <= i < |s| ensures r[i] == s[i] {
      assert s[i] != '+';
    }
  }

  /** A text with no space is left as it is. */
  lemma ReplaceSpacesFixed(s: string)
    requires ' ' !in s
    ensures ReplaceSpaces(s) == s
  {
    var r := ReplaceSpaces(s);
    forall i | 0 <= i < |s| ensures r[i] == s[i] {
      assert s[i] in s;
    }
  }

  /** The encoding is not injective: a space and a literal '+' look the same. */
  lemma SpaceAndPlusCollide(a: string, b: string)
    ensures ReplaceSpaces(a + " " + b) == ReplaceSpaces(a + "+" + b)
  {
    ReplaceSpacesAppend(a + " ", b);
    ReplaceSpacesAppend(a, " ");
    ReplaceSpacesAppend(a + "+", b);
    ReplaceSpacesAppend(a, "+");
  }

  // ---------------------------------------------------------------------
  // ' '.join and str(int)
  // ---------------------------------------------------------------------

  /** Python's sep.join(parts). */
  function Join(parts: seq<string>, sep: string): string
    decreases |parts|
  {
    if |parts| == 0 then ""
    else if |parts| == 1 then parts[0]
    else parts[0] + sep + Join(parts[1..], sep)
  }

  function ReplaceSpacesAll(parts: seq<string>): (r: seq<string>)
    ensures |r| == |parts|
    ensures forall i :: 0 <= i < |parts| ==> r[i] == ReplaceSpaces(parts[i])
  {
    if parts == [] then [] else [ReplaceSpaces(parts[0])] + ReplaceSpacesAll(parts[1..])
  }

  /** Encoding a space-joined list is joining the encoded items with '+'. */
  lemma {:induction false} ReplaceSpacesJoin(parts: seq<string>)
    ensures ReplaceSpaces(Join(parts, " ")) == Join(ReplaceSpacesAll(parts), "+")
    decreases |parts|
  {
    if |parts| >= 2 {
      var rest := parts[1..];
      ReplaceSpacesJoin(rest);
      calc {
        ReplaceSpaces(Join(parts, " "));
        ReplaceSpaces(parts[0] + " " + Join(rest, " "));
        { ReplaceSpacesAppend(parts[0] + " ", Join(rest, " "));
          ReplaceSpacesAppend(parts[0], " "); }
        ReplaceSpaces(parts[0]) + ReplaceSpaces(" ") + ReplaceSpaces(Join(rest, " "));
        { assert ReplaceSpaces(" ") == "+"; }
        ReplaceSpaces(parts[0]) + "+" + Join(ReplaceSpacesAll(rest), "+");
        { assert ReplaceSpacesAll(parts)[1..] == ReplaceSpacesAll(rest); }
        Join(ReplaceSpacesAll(parts), "+");
      }
    }
  }

  /** A character that occurs in neither the separator nor any part does not occur in the join. */
  lemma {:induction false} JoinExcludes(parts: seq<string>, sep: string, c: char)
    requires c !in sep
    requires forall i :: 0 <= i < |parts| ==> c !in parts[i]
    ensures c !in Join(parts, sep)
    decreases |parts|
  {
    if |parts| >= 2 {
      JoinExcludes(parts[1..], sep, c);
    }
  }

  function DigitChar(d: nat): (c: char)
    requires d < 10
    ensures '0' <= c <= '9'
  {
    ('0' as int + d) as char
  }

  /** Decimal digits of n, most significant first, without leading zeros. */
  function NatToDecimal(n: nat): (r: string)
    ensures |r| >= 1
    ensures forall i :: 0 <= i < |r| ==> '0' <= r[i] <= '9'
    ensures r[0] == '0' ==> n == 0
    decreases n
  {
    if n < 10 then [DigitChar(n)] else NatToDecimal(n / 10) + [DigitChar(n % 10)]
  }

  /** Python's str(i) for an int (the f-string rendering of experience). */
  function IntToDecimal(i: int): (r: string)
    ensures |r| >= 1
    ensures (r[0] == '-') <==> i < 0
    ensures i < 0 ==> r == "-" + NatToDecimal(-i)
    ensures forall k :: 0 <= k < |r| ==> r[k] == '-' || '0' <= r[k] <= '9'
  {
    if i < 0 then "-" + NatToDecimal(-i) else NatToDecimal(i)
  }

  /** Reads a string of decimal digits back as a number. */
  function DigitsValue(s: string): int
    decreases |s|
  {
    if s == [] then 0 else DigitsValue(s[..|s| - 1]) * 10 + (s[|s| - 1] as int - '0' as int)
  }

  /** Python's int(s) on the strings str() produces. */
  function DecimalValue(s: string): int
  {
    if |s| > 0 && s[0] == '-' then - DigitsValue(s[1..]) else DigitsValue(s)
  }

  lemma {:induction false} NatDecimalRoundTrip(n: nat)
    ensures DigitsValue(NatToDecimal(n)) == n
    decreases n
  {
    if n >= 10 {
      NatDecimalRoundTrip(n / 10);
      var s := NatToDecimal(n);
      assert s[..|s| - 1] == NatToDecimal(n / 10);
    }
  }

  /** str(i) is read back as i: the rendering loses nothing. */
  lemma DecimalRoundTrip(i: int)
    ensures DecimalValue(IntToDecimal(i)) == i
  {
    if i < 0 {
      NatDecimalRoundTrip(-i);
      assert IntToDecimal(i)[1..] == NatToDecimal(-i);
    } else {
      NatDecimalRoundTrip(i);
    }
  }

  // ---------------------------------------------------------------------
  // The two URL parameters and the URL
  // ---------------------------------------------------------------------

  /** The query text before encoding: domain, skills, experience, "years". */
  function QueryText(q: JobQuery): string
  {
    q.domain + " " + Join(q.skills, " ") + " " + IntToDecimal(q.experience) + " years"
  }

  /** The q parameter (line 7). */
  function QueryParam(q: JobQuery): (r: string)
    ensures ' ' !in r
    ensures |r| == |QueryText(q)|
  {
    ReplaceSpaces(QueryText(q))
  }

  /** The l parameter (line 8). */
  function LocationParam(city: string, country: string): (r: string)
    ensures ' ' !in r
    ensures |r| == |city| + 2 + |country|
  {
    ReplaceSpaces(city + ", " + country)
  }

  /** The search URL (line 9); the user agent is not an input. */
  function SearchUrlOf(q: JobQuery): (r: string)
    ensures ' ' !in r
    ensures |BaseUrl| <= |r| && r[..|BaseUrl|] == BaseUrl
  {
    var r := BaseUrl + QueryParam(q) + LocationKey + LocationParam(q.city, q.country);
    assert r[..|BaseUrl|] == BaseUrl;
    r
  }

  /** The encoded q parameter piece by piece: each field encoded, glued by '+'. */
  lemma QueryParamShape(q: JobQuery)
    ensures QueryParam(q) ==
      ReplaceSpaces(q.domain) + "+" + Join(ReplaceSpacesAll(q.skills), "+") + "+"
      + IntToDecimal(q.experience) + "+years"
  {
    var d, j, e := q.domain, Join(q.skills, " "), IntToDecimal(q.experience);
    ReplaceSpacesAppend(d + " " + j + " " + e, " years");
    ReplaceSpacesAppend(d + " " + j + " ", e);
    ReplaceSpacesAppend(d + " " + j, " ");
    ReplaceSpacesAppend(d + " ", j);
    ReplaceSpacesAppend(d, " ");
    ReplaceSpacesJoin(q.skills);
    assert ' ' !in e;
    assert ReplaceSpaces(e) == e;
    assert ReplaceSpaces(" ") == "+";
    assert ReplaceSpaces(" years") == "+years";
  }

  /** The encoded l parameter: city, ",+", country, each encoded. */
  lemma LocationParamShape(city: string, country: string)
    ensures LocationParam(city, country) == ReplaceSpaces(city) + ",+" + ReplaceSpaces(country)
  {
    ReplaceSpacesAppend(city + ", ", country);
    ReplaceSpacesAppend(city, ", ");
    assert ReplaceSpaces(", ") == ",+";
  }

  /** With no '+' in the text fields, form decoding of q gives back the query text. */
  lemma QueryParamDecodes(q: JobQuery)
    requires '+' !in q.domain
    requires forall i :: 0 <= i < |q.skills| ==> '+' !in q.skills[i]
    ensures PlusToSpace(QueryParam(q)) == QueryText(q)
  {
    JoinExcludes(q.skills, " ", '+');
    assert '+' !in IntToDecimal(q.experience);
    DecodeEncoded(QueryText(q));
  }

  /** With space-free text fields and two skills, q is the fields joined by '+'. */
  lemma PlainQuery(q: JobQuery, s0: string, s1: string)
    requires q.skills == [s0, s1]
    requires ' ' !in q.domain && ' ' !in s0 && ' ' !in s1
    ensures QueryParam(q) == q.domain + "+" + s0 + "+" + s1 + "+" + IntToDecimal(q.experience) + "+years"
  {
    QueryParamShape(q);
    ReplaceSpacesFixed(q.domain); ReplaceSpacesFixed(s0); ReplaceSpacesFixed(s1);
    assert ReplaceSpacesAll(q.skills) == [s0, s1];
  }

  /** With space-free city and country, l is "city,+country". */
  lemma PlainLocation(city: string, country: string)
    requires ' ' !in city && ' ' !in country
    ensures LocationParam(city, country) == city + ",+" + country
  {
    LocationParamShape(city, country);
    ReplaceSpacesFixed(city); ReplaceSpacesFixed(country);
  }

  /** The worked example's q parameter: engineer / python, sql / 3 years. */
  lemma DubaiQuery()
    ensures QueryParam(JobQuery("engineer", ["python", "sql"], 3, "AE", "Dubai"))
            == "engineer+python+sql+3+years"
  {
    PlainQuery(JobQuery("engineer", ["python", "sql"], 3, "AE", "Dubai"), "python", "sql");
    assert IntToDecimal(3) == "3";
    assert "engineer" + "+" + "python" == "engineer+python";
    assert "engineer+python" + "+" + "sql" == "engineer+python+sql";
    assert "engineer+python+sql" + "+" + "3" + "+years" == "engineer+python+sql+3+years";
  }

  /** The worked example's l parameter: Dubai, AE. */
  lemma DubaiLocation()
    ensures LocationParam("Dubai", "AE") == "Dubai,+AE"
  {
    PlainLocation("Dubai", "AE");
  }

  /** The URL is the fixed base, the q parameter, "&l=" and the l parameter. */
  lemma SearchUrlParts(q: JobQuery)
    ensures SearchUrlOf(q)
            == "https://ae.indeed.com/jobs?q=" + QueryParam(q) + "&l=" + LocationParam(q.city, q.country)
  {
  }

  /**
   * The whole worked example: engineer / python, sql / 3 years / Dubai, AE
   * gives https://ae.indeed.com/jobs?q=engineer+python+sql+3+years&l=Dubai,+AE
   * (written below as the concatenation of its four pieces).
   */
  lemma DubaiUrl()
    ensures SearchUrlOf(JobQuery("engineer", ["python", "sql"], 3, "AE", "Dubai"))
            == "https://ae.indeed.com/jobs?q=" + "engineer+python+sql+3+years" + "&l=" + "Dubai,+AE"
  {
    DubaiQuery();
    DubaiLocation();
    SearchUrlParts(JobQuery("engineer", ["python", "sql"], 3, "AE", "Dubai"));
  }

  /** An empty skill list leaves two '+' in a row: "domain++N+years". */
  lemma EmptySkillsDoublePlus(q: JobQuery)
    requires q.skills == []
    ensures QueryParam(q) == ReplaceSpaces(q.domain) + "++" + IntToDecimal(q.experience) + "+years"
  {
    QueryParamShape(q);
    assert ReplaceSpacesAll(q.skills) == [];
  }

  // ---------------------------------------------------------------------
  // Reading the URL back
  // ---------------------------------------------------------------------

  /** Index of the first c in s, or |s| when there is none. */
  function IndexOf(s: string, c: char): (r: nat)
    ensures r <= |s|
    ensures c !in s[..r]
    ensures r < |s| ==> s[r] == c
    decreases |s|
  {
    if s == [] then 0
    else if s[0] == c then 0
    else
      var k := IndexOf(s[1..], c);
      assert s[..k + 1] == [s[0]] + s[1..][..k];
      k + 1
  }

  /** The first occurrence is the one with no earlier occurrence. */
  lemma {:induction false} IndexOfFirst(s: string, c: char, k: nat)
    requires k < |s| && s[k] == c && c !in s[..k]
    ensures IndexOf(s, c) == k
    decreases k
  {
    if k > 0 {
      assert s[0] == s[..k][0];
      assert s[1..][..k - 1] == s[..k][1..];
      IndexOfFirst(s[1..], c, k - 1);
    }
  }

  /** Cutting a sequence at two points and gluing the parts gives it back. */
  lemma SplitThree(s: string, a: nat, b: nat)
    requires a <= b <= |s|
    ensures s == s[..a] + s[a..b] + s[b..]
  {
  }

  /**
   * A split of the search URL after the fixed base: q runs to the first '&',
   * which must begin "&l=", and l is all the rest.  Only this split is
   * modelled, not a full query-string parser.
   */
  function ParseSearchUrl(url: string): (r: Option<(string, string)>)
    ensures r.Some? ==> BaseUrl + r.value.0 + LocationKey + r.value.1 == url
    ensures r.Some? ==> '&' !in r.value.0
  {
    if |url| < |BaseUrl| || url[..|BaseUrl|] != BaseUrl then None
    else
      var rest := url[|BaseUrl|..];
      var k := IndexOf(rest, '&');
      if |rest| < k + |LocationKey| || rest[k..k + |LocationKey|] != LocationKey then None
      else
        SplitThree(rest, k, k + |LocationKey|);
        SplitThree(url, |BaseUrl|, |url|);
        Some((rest[..k], rest[k + |LocationKey|..]))
  }

  /** With no '&' in domain or skills, the split at the first '&' gives back exactly the two parameters. */
  lemma ParseSearchUrlRoundTrip(q: JobQuery)
    requires '&' !in q.domain
    requires forall i :: 0 <= i < |q.skills| ==> '&' !in q.skills[i]
    ensures ParseSearchUrl(SearchUrlOf(q)) == Some((QueryParam(q), LocationParam(q.city, q.country)))
  {
    var qp, lp := QueryParam(q), LocationParam(q.city, q.country);
    JoinExcludes(q.skills, " ", '&');
    assert '&' !in IntToDecimal(q.experience);
    assert '&' !in QueryText(q);
    assert '&' !in qp by {
      forall i | 0 <= i < |qp| ensures qp[i] != '&' {
        assert QueryText(q)[i] in QueryText(q);
      }
    }
    var url := SearchUrlOf(q);
    assert url == BaseUrl + qp + LocationKey + lp;
    var rest := url[|BaseUrl|..];
    assert rest == qp + LocationKey + lp;
    assert rest[..|qp|] == qp;
    IndexOfFirst(rest, '&', |qp|);
    assert rest[|qp|..|qp| + |LocationKey|] == LocationKey;
    assert rest[|qp| + |LocationKey|..] == lp;
    assert url[..|BaseUrl|] == BaseUrl;
    assert rest[..|qp|] == qp;
  }
}
