/**
 * The geopolitical risk sentinel of user_price_fetcher.py, lines 85-93: a
 * weighted keyword count over the titles of the five most recent news items,
 * and the status it maps to.
 */
module Risk {
  import opened Wrappers
  import opened Text

  /** The keyword table of line 87, in its insertion order. */
  const RiskKeywords: seq<(string, nat)> :=
    [("war", 30), ("tariff", 25), ("sanction", 25), ("election", 15), ("trade", 10)]

  /** Only the first five news items are read (`stock.news[:5]`). */
  const NewsLimit: nat := 5

  /** A news item's title, `n.get('title', '')` when the item has none. */
  function TitleOf(item: Option<string>): string
  {
    item.GetOr("")
  }

  /** What the keywords `kws` add for one lower-cased title: each matched keyword once. */
  function KeywordScore(title: string, kws: seq<(string, nat)>): nat
  {
    if kws == [] then 0
    else
      var last := kws[|kws| - 1];
      KeywordScore(title, kws[..|kws| - 1]) + (if Contains(title, last.0) then last.1 else 0)
  }

  /** What one news item adds to the score. */
  function HeadlineScore(item: Option<string>): nat
  {
    KeywordScore(Lower(TitleOf(item)), RiskKeywords)
  }

  /** The contributions of the items, added up. */
  function RiskScore(items: seq<Option<string>>): nat
  {
    if items == [] then 0 else RiskScore(items[..|items| - 1]) + HeadlineScore(items[|items| - 1])
  }

  function FirstNews(news: seq<Option<string>>): (r: seq<Option<string>>)
    ensures |r| <= NewsLimit && |r| <= |news| && r == news[..|r|]
    ensures |r| == if |news| <= NewsLimit then |news| else NewsLimit
  {
    if |news| <= NewsLimit then news else news[..NewsLimit]
  }

  /** The score the sentinel reports for an instrument's news list. */
  function GeoRiskScore(news: seq<Option<string>>): nat
  {
    RiskScore(FirstNews(news))
  }

  /** The nested loop of lines 86-91, proved to compute `GeoRiskScore`. */
  method ScoreHeadlines(news: seq<Option<string>>) returns (riskScore: nat)
    ensures riskScore == GeoRiskScore(news)
  {
    var considered := if |news| <= NewsLimit then news else news[..NewsLimit];
    riskScore := 0;
    for i := 0 to |considered|
      invariant riskScore == RiskScore(considered[..i])
    {
      var title := Lower(TitleOf(considered[i]));
      for j := 0 to |RiskKeywords|
        invariant riskScore == RiskScore(considered[..i]) + KeywordScore(title, RiskKeywords[..j])
      {
        var (word, weight) := RiskKeywords[j];
        if Contains(title, word) {
          riskScore := riskScore + weight;
        }
        assert RiskKeywords[..j + 1][..j] == RiskKeywords[..j];
      }
      assert RiskKeywords[..|RiskKeywords|] == RiskKeywords;
      assert considered[..i + 1][..i] == considered[..i];
    }
    assert considered[..|considered|] == considered;
  }

  // ---------------------------------------------------------------------
  // Properties of the score

  /** Scores add up across news items. */
  lemma {:induction false} RiskScoreAppend(a: seq<Option<string>>, b: seq<Option<string>>)
    ensures RiskScore(a + b) == RiskScore(a) + RiskScore(b)
    decreases |b|
  {
    if b == [] {
      assert a + b == a;
    } else {
      var b' := b[..|b| - 1];
      assert (a + b)[..|a + b| - 1] == a + b';
      RiskScoreAppend(a, b');
    }
  }

  /** With five headlines or fewer, every headline is scored. */
  lemma ShortNewsIsScoredWhole(news: seq<Option<string>>)
    requires |news| <= NewsLimit
    ensures GeoRiskScore(news) == RiskScore(news)
  {
    assert FirstNews(news) == news[..|news|];
    assert news[..|news|] == news;
  }

  /** Items after the fifth never change the score. */
  lemma GeoRiskScoreIgnoresLaterNews(news: seq<Option<string>>, later: seq<Option<string>>)
    requires |news| >= NewsLimit
    ensures GeoRiskScore(news + later) == GeoRiskScore(news)
  {
    assert (news + later)[..NewsLimit] == news[..NewsLimit];
  }

  function TotalWeight(kws: seq<(string, nat)>): nat
  {
    if kws == [] then 0 else TotalWeight(kws[..|kws| - 1]) + kws[|kws| - 1].1
  }

  function Hit(title: string, word: string, weight: nat): nat
  {
    if Contains(title, word) then weight else 0
  }

  /** The table of line 87 written out: each keyword found in the title adds its weight. */
  lemma TableScore(title: string)
    ensures KeywordScore(title, RiskKeywords) ==
      Hit(title, "war", 30) + Hit(title, "tariff", 25) + Hit(title, "sanction", 25)
      + Hit(title, "election", 15) + Hit(title, "trade", 10)
    ensures TotalWeight(RiskKeywords) == 105
  {
    var k: seq<(string, nat)> := RiskKeywords;
    var k1, k2, k3, k4 := k[..1], k[..2], k[..3], k[..4];
    assert k1[..0] == [];
    assert k2[..1] == k1 && k3[..2] == k2 && k4[..3] == k3 && k[..4] == k4;
    assert KeywordScore(title, k1) == Hit(title, "war", 30) && TotalWeight(k1) == 30;
    assert KeywordScore(title, k2) == KeywordScore(title, k1) + Hit(title, "tariff", 25) && TotalWeight(k2) == 55;
    assert KeywordScore(title, k3) == KeywordScore(title, k2) + Hit(title, "sanction", 25) && TotalWeight(k3) == 80;
    assert KeywordScore(title, k4) == KeywordScore(title, k3) + Hit(title, "election", 15) && TotalWeight(k4) == 95;
  }

  /** A title scores each keyword at most once, so never more than the sum of all weights. */
  lemma {:induction false} KeywordScoreAtMostTotal(title: string, kws: seq<(string, nat)>)
    ensures KeywordScore(title, kws) <= TotalWeight(kws)
    decreases |kws|
  {
    if kws != [] {
      KeywordScoreAtMostTotal(title, kws[..|kws| - 1]);
    }
  }

  lemma {:induction false} RiskScoreAtMostPerItem(news: seq<Option<string>>)
    ensures RiskScore(news) <= 105 * |news|
    decreases |news|
  {
    if news != [] {
      RiskScoreAtMostPerItem(news[..|news| - 1]);
      KeywordScoreAtMostTotal(Lower(TitleOf(news[|news| - 1])), RiskKeywords);
      TableScore(Lower(TitleOf(news[|news| - 1])));
    }
  }

  /** With the table of line 87 one item adds at most 105, so the sentinel never exceeds 525. */
  lemma GeoRiskScoreBounded(news: seq<Option<string>>)
    ensures 0 <= GeoRiskScore(news) <= 525
  {
    RiskScoreAtMostPerItem(FirstNews(news));
  }

  /** Matching ignores case: titles that lower-case alike score alike. */
  lemma HeadlineScoreIgnoresCase(t: string)
    ensures HeadlineScore(Some(Upper(t))) == HeadlineScore(Some(t))
    ensures HeadlineScore(Some(Lower(t))) == HeadlineScore(Some(t))
  {
    LowerOfUpper(t);
    LowerIdempotent(t);
  }

  // ---------------------------------------------------------------------
  // The status of line 93

  datatype GeoStatus = Stable | Elevated | Critical

  function GeoStatusLabel(g: GeoStatus): string
  {
    match g
    case Stable => "STABLE"
    case Elevated => "ELEVATED"
    case Critical => "CRITICAL"
  }

  /** The three bands go out under three different labels. */
  lemma GeoStatusLabelsDiffer(a: GeoStatus, b: GeoStatus)
    ensures GeoStatusLabel(a) == GeoStatusLabel(b) <==> a == b
  {
  }

  function Severity(g: GeoStatus): nat
  {
    match g
    case Stable => 0
    case Elevated => 1
    case Critical => 2
  }

  function StatusOf(score: int): (g: GeoStatus)
    ensures g == Stable <==> score < 30
    ensures g == Elevated <==> 30 <= score < 60
    ensures g == Critical <==> score >= 60
  {
    if score < 30 then Stable else if score < 60 then Elevated else Critical
  }

  /** A higher score never lowers the status. */
  lemma StatusMonotone(a: int, b: int)
    requires a <= b
    ensures Severity(StatusOf(a)) <= Severity(StatusOf(b))
  {
  }

  /** A keyword holding a character the title lacks is not found in it. */
  lemma MissingChar(title: string, word: string, c: char)
    requires c in word && c !in title
    ensures !Contains(title, word)
  {
    FoundCharsOccur(title, word);
  }

  lemma TradeWarKeywords(t: string)
    requires t == "trade war escalates"
    ensures KeywordScore(t, RiskKeywords) == 40
  {
    assert Hit(t, "trade", 10) == 10 by {
      assert OccursAt(t, "trade", 0);
      OccurrenceIsFound(t, "trade", 0);
    }
    assert Hit(t, "war", 30) == 30 by {
      assert OccursAt(t, "war", 6);
      OccurrenceIsFound(t, "war", 6);
    }
    assert Hit(t, "tariff", 25) == 0 by {
      MissingChar(t, "tariff", 'f');
    }
    assert Hit(t, "sanction", 25) == 0 by {
      MissingChar(t, "sanction", 'n');
    }
    assert Hit(t, "election", 15) == 0 by {
      MissingChar(t, "election", 'n');
    }
    TableScore(t);
  }

  lemma ElectionKeywords(t: string)
    requires t == "election results in"
    ensures KeywordScore(t, RiskKeywords) == 15
  {
    assert Hit(t, "election", 15) == 15 by {
      assert OccursAt(t, "election", 0);
      OccurrenceIsFound(t, "election", 0);
    }
    assert Hit(t, "war", 30) == 0 by {
      MissingChar(t, "war", 'w');
    }
    assert Hit(t, "tariff", 25) == 0 by {
      MissingChar(t, "tariff", 'f');
    }
    assert Hit(t, "sanction", 25) == 0 by {
      MissingChar(t, "sanction", 'a');
    }
    assert Hit(t, "trade", 10) == 0 by {
      MissingChar(t, "trade", 'a');
    }
    TableScore(t);
  }

  lemma TradeWarHeadline(item: Option<string>)
    requires item == Some("Trade war escalates")
    ensures HeadlineScore(item) == 40
  {
    var t := Lower(TitleOf(item));
    assert t == "trade war escalates";
    TradeWarKeywords(t);
  }

  lemma ElectionHeadline(item: Option<string>)
    requires item == Some("Election results in")
    ensures HeadlineScore(item) == 15
  {
    var t := Lower(TitleOf(item));
    assert t == "election results in";
    ElectionKeywords(t);
  }

  /** Worked example: trade (10), war (30) and election (15) make 55, ELEVATED. */
  lemma TradeWarElectionExample(news: seq<Option<string>>)
    requires news == [Some("Trade war escalates"), Some("Election results in")]
    ensures GeoRiskScore(news) == 55
    ensures StatusOf(GeoRiskScore(news)) == Elevated
  {
    TradeWarHeadline(news[0]);
    ElectionHeadline(news[1]);
    assert FirstNews(news) == news;
    assert news[..1][..0] == [];
    assert RiskScore(news[..1]) == HeadlineScore(news[0]);
    assert RiskScore(news) == RiskScore(news[..1]) + HeadlineScore(news[1]);
  }

  /** A keyword repeated in one title still counts once: "war war war" scores 30. */
  lemma RepeatedKeywordCountsOnce(t: string)
    requires t == "war war war"
    ensures HeadlineScore(Some(t)) == 30
  {
    var l := Lower(t);
    assert l == t;
    assert OccursAt(l, "war", 0);
    OccurrenceIsFound(l, "war", 0);
    MissingChar(l, "tariff", 't');
    MissingChar(l, "sanction", 's');
    MissingChar(l, "election", 'e');
    MissingChar(l, "trade", 't');
    TableScore(l);
  }
}
