// Which registered source a submitted article URL belongs to.

module SourceMatching {
  import opened Wrappers
  import opened StorageKeys
  import opened Sorting

  // A registered source, with the host and the path of its base URL.
  datatype Source = Source(sourceId: string, hostname: string, path: string)

  datatype MatchError = Unsupported | Ambiguous

  function StripSlashes(s: string): string {
    if s != "" && s[|s| - 1] == '/' then StripSlashes(s[..|s| - 1]) else s
  }

  // The path of the base URL without its trailing slashes.
  function Prefix(source: Source): string {
    StripSlashes(if source.path == "" then "/" else source.path)
  }

  predicate PathMatches(submitted: string, prefix: string) {
    prefix == "" || submitted == prefix || prefix + "/" <= submitted
  }

  predicate Digits(s: string) {
    forall i :: 0 <= i < |s| ==> '0' <= s[i] <= '9'
  }

  // /articles/ eight digits -OHT1T at least one digit .html
  predicate IsHochiArticle(path: string) {
    && |path| >= 30
    && path[..10] == "/articles/" && Digits(path[10..18]) && path[18..24] == "-OHT1T"
    && Digits(path[24..|path| - 5]) && path[|path| - 5..] == ".html"
  }

  const HOCHI := "hochi_giants_articles"

  predicate SourceMatches(source: Source, hostname: string, path: string) {
    && source.hostname == hostname
    && (PathMatches(path, Prefix(source)) || (source.sourceId == HOCHI && IsHochiArticle(path)))
  }

  // ---- The loop, the sort and the choice ----

  method MatchSource(sources: seq<Source>, hostname: string, path: string) returns (r: Result<Source, MatchError>)
    ensures Chosen(multiset(sources), hostname, path, r)
  {
    var matches := FindMatches(sources, hostname, path);
    if matches == [] {
      NoneChosen(sources, hostname, path);
      return Err(Unsupported);
    }
    LongestFirstIsOrder();
    SortSpec(matches, LongestFirst());
    var sorted := Sort(matches, LongestFirst());
    assert |multiset(sorted)| == |multiset(matches)|;
    var best := KeepLength(sorted, sorted[0].0);
    BestChosen(sources, hostname, path, sorted, best);
    return if |best| != 1 then Err(Ambiguous) else Ok(best[0]);
  }

  method FindMatches(sources: seq<Source>, hostname: string, path: string) returns (matches: seq<(int, Source)>)
    ensures matches == Matching(sources, hostname, path)
  {
    matches := [];
    for i := 0 to |sources|
      invariant matches == Matching(sources[..i], hostname, path)
    {
      assert sources[..i + 1][..i] == sources[..i];
      if SourceMatches(sources[i], hostname, path) {
        matches := matches + [(|Prefix(sources[i])|, sources[i])];
      }
    }
    assert sources[..|sources|] == sources;
  }

  method KeepLength(matches: seq<(int, Source)>, length: int) returns (best: seq<Source>)
    ensures best == OfLength(matches, length)
  {
    best := [];
    for i := 0 to |matches|
      invariant best == OfLength(matches[..i], length)
    {
      assert matches[..i + 1][..i] == matches[..i];
      if matches[i].0 == length {
        best := best + [matches[i].1];
      }
    }
    assert matches[..|matches|] == matches;
  }

  function LongestFirst(): ((int, Source), (int, Source)) -> bool {
    (a: (int, Source), b: (int, Source)) => a.0 >= b.0
  }

  lemma LongestFirstIsOrder()
    ensures TotalPreorder(LongestFirst())
  {
  }

  function Matching(sources: seq<Source>, hostname: string, path: string): seq<(int, Source)> {
    if sources == [] then []
    else
      var last := sources[|sources| - 1];
      Matching(sources[..|sources| - 1], hostname, path)
      + if SourceMatches(last, hostname, path) then [(|Prefix(last)|, last)] else []
  }

  function OfLength(matches: seq<(int, Source)>, length: int): seq<Source> {
    if matches == [] then []
    else
      var last := matches[|matches| - 1];
      OfLength(matches[..|matches| - 1], length) + if last.0 == length then [last.1] else []
  }

  // ---- What the choice means, without any order of the sources ----

  predicate Longest(sources: multiset<Source>, hostname: string, path: string, s: Source) {
    && s in sources && SourceMatches(s, hostname, path)
    && forall o :: o in sources && SourceMatches(o, hostname, path) ==> |Prefix(o)| <= |Prefix(s)|
  }

  // The one source with the longest matching path; no source when none matches; an error when two sources,
  // or one registered twice, share the greatest length.
  predicate Chosen(sources: multiset<Source>, hostname: string, path: string, r: Result<Source, MatchError>) {
    match r
    case Ok(s) =>
      && Longest(sources, hostname, path, s) && sources[s] == 1
      && forall o :: o in sources && o != s && SourceMatches(o, hostname, path) ==> |Prefix(o)| < |Prefix(s)|
    case Err(Unsupported) => forall o :: o in sources ==> !SourceMatches(o, hostname, path)
    case Err(Ambiguous) =>
      exists s :: s in sources && Longest(sources, hostname, path, s)
        && (sources[s] >= 2 || exists o :: o in sources && o != s && Longest(sources, hostname, path, o))
  }

  // The result is determined by the registered sources, whatever order they are listed in.
  lemma ChoiceIsUnique(sources: multiset<Source>, hostname: string, path: string,
                       r: Result<Source, MatchError>, r': Result<Source, MatchError>)
    requires Chosen(sources, hostname, path, r) && Chosen(sources, hostname, path, r')
    ensures r == r'
  {
    if r.Ok? && r'.Ok? {
      assert SourceMatches(r.value, hostname, path) && SourceMatches(r'.value, hostname, path);
    }
  }

  lemma {:induction false} MatchingSpec(sources: seq<Source>, hostname: string, path: string)
    ensures forall m :: m in Matching(sources, hostname, path) ==>
      m.0 == |Prefix(m.1)| && SourceMatches(m.1, hostname, path)
    ensures forall s {:trigger multiset(sources)[s]} ::
      multiset(Matching(sources, hostname, path))[(|Prefix(s)|, s)]
      == if SourceMatches(s, hostname, path) then multiset(sources)[s] else 0
  {
    if sources != [] {
      MatchingSpec(sources[..|sources| - 1], hostname, path);
      assert sources == sources[..|sources| - 1] + [sources[|sources| - 1]];
      var last := sources[|sources| - 1];
      forall s ensures multiset(Matching(sources, hostname, path))[(|Prefix(s)|, s)]
        == if SourceMatches(s, hostname, path) then multiset(sources)[s] else 0
      {
        assert multiset(sources)[s] == multiset(sources[..|sources| - 1])[s] + if s == last then 1 else 0;
      }
    }
  }

  lemma NoneChosen(sources: seq<Source>, hostname: string, path: string)
    requires Matching(sources, hostname, path) == []
    ensures Chosen(multiset(sources), hostname, path, Err(Unsupported))
  {
    MatchingSpec(sources, hostname, path);
    forall o | o in multiset(sources) ensures !SourceMatches(o, hostname, path) {
      assert multiset(sources)[o] >= 1;
    }
  }

  lemma {:induction false} OfLengthSpec(matches: seq<(int, Source)>, length: int)
    requires forall m :: m in matches ==> m.0 == |Prefix(m.1)|
    ensures forall s {:trigger multiset(OfLength(matches, length))[s]} ::
      multiset(OfLength(matches, length))[s] == if |Prefix(s)| == length then multiset(matches)[(length, s)] else 0
  {
    if matches != [] {
      var last := matches[|matches| - 1];
      OfLengthSpec(matches[..|matches| - 1], length);
      assert matches == matches[..|matches| - 1] + [last];
    }
  }

  // How often each source is among the best.
  ghost predicate BestCounts(all: multiset<Source>, hostname: string, path: string, longest: int, best: seq<Source>) {
    forall s {:trigger multiset(best)[s]} :: multiset(best)[s] == if SourceMatches(s, hostname, path)
      && |Prefix(s)| == longest then all[s] else 0
  }

  ghost predicate NoLonger(all: multiset<Source>, hostname: string, path: string, longest: int) {
    forall o :: o in all && SourceMatches(o, hostname, path) ==> |Prefix(o)| <= longest
  }

  lemma BestChosen(sources: seq<Source>, hostname: string, path: string, sorted: seq<(int, Source)>, best: seq<Source>)
    requires multiset(sorted) == multiset(Matching(sources, hostname, path)) && sorted != []
    requires SortedBy(sorted, LongestFirst()) && best == OfLength(sorted, sorted[0].0)
    ensures Chosen(multiset(sources), hostname, path, if |best| != 1 then Err(Ambiguous) else Ok(best[0]))
  {
    MatchingSpec(sources, hostname, path);
    var all, longest, first := multiset(sources), sorted[0].0, sorted[0].1;
    LongestFirstIsOrder();
    forall m | m in sorted ensures m.0 == |Prefix(m.1)| && SourceMatches(m.1, hostname, path) && m.0 <= longest {
      assert m in multiset(sorted);
      HeadIsLeast(sorted, m, LongestFirst());
    }
    OfLengthSpec(sorted, longest);
    assert sorted[0] in multiset(sorted);
    assert BestCounts(all, hostname, path, longest, best) by {
      forall s ensures multiset(best)[s] == if SourceMatches(s, hostname, path) && |Prefix(s)| == longest then all[s]
        else 0 {
        assert all[s] == multiset(sources)[s];
      }
    }
    forall o | o in all && SourceMatches(o, hostname, path) ensures |Prefix(o)| <= longest {
      assert all[o] >= 1;
      assert (|Prefix(o)|, o) in multiset(sorted);
    }
    assert multiset(best)[first] >= 1;
    ChosenFromBest(all, hostname, path, longest, best, first);
  }

  lemma ChosenFromBest(all: multiset<Source>, hostname: string, path: string, longest: int, best: seq<Source>,
                       first: Source)
    requires BestCounts(all, hostname, path, longest, best) && NoLonger(all, hostname, path, longest)
    requires first in multiset(best)
    ensures Chosen(all, hostname, path, if |best| != 1 then Err(Ambiguous) else Ok(best[0]))
  {
    assert multiset(best)[first] >= 1;
    assert Longest(all, hostname, path, first);
    if |best| == 1 {
      assert best == [best[0]] && multiset(best) == multiset{best[0]};
      forall o | o in all && o != best[0] && SourceMatches(o, hostname, path) ensures |Prefix(o)| < longest {
        assert multiset(best)[o] == 0;
      }
    } else {
      AnotherBest(best, first);
      if multiset(best)[first] < 2 {
        var o :| o in best && o != first;
        assert multiset(best)[o] >= 1;
        assert Longest(all, hostname, path, o);
      }
    }
  }

  lemma AnotherBest(best: seq<Source>, first: Source)
    requires first in best && |best| != 1
    ensures multiset(best)[first] >= 2 || exists o :: o in best && o != first
  {
    if forall o :: o in best ==> o == first {
      assert best[0] in best && best[1] in best;
      assert best == [best[0], best[1]] + best[2..];
      assert multiset(best) == multiset{first, first} + multiset(best[2..]);
    }
  }

  // ---- What a source is matched by, in whole path segments ----

  function Segments(s: string): (r: seq<string>)
    ensures |r| >= 1
    decreases |s|
  {
    var i := FirstSlash(s);
    if i == |s| then [s] else [s[..i]] + Segments(s[i + 1..])
  }

  lemma SegmentsCons(head: string, rest: string)
    requires '/' !in head
    ensures Segments(head) == [head] && Segments(head + "/" + rest) == [head] + Segments(rest)
  {
    FirstSlashOf(head, rest);
    var s := head + "/" + rest;
    assert s[..|head|] == head && s[|head| + 1..] == rest;
  }

  // A submitted path matches a source's exactly when its segments begin with the source's; an empty path matches all.
  lemma PathMatchesIff(submitted: string, prefix: string)
    ensures PathMatches(submitted, prefix) <==> prefix == "" || Segments(prefix) <= Segments(submitted)
  {
    PrefixIsSegmentwise(submitted, prefix);
  }

  lemma {:induction false} PrefixIsSegmentwise(submitted: string, prefix: string)
    ensures submitted == prefix || prefix + "/" <= submitted <==> Segments(prefix) <= Segments(submitted)
    decreases |prefix|
  {
    var i, j := FirstSlash(prefix), FirstSlash(submitted);
    if i < |prefix| && j < |submitted| {
      var h, t, g, u := prefix[..i], prefix[i + 1..], submitted[..j], submitted[j + 1..];
      assert prefix == h + "/" + t && submitted == g + "/" + u;
      PrefixIsSegmentwise(u, t);
      SegmentsCons(h, t);
      SegmentsCons(g, u);
      HeadsAgree(h, t, g, u);
      ConsPrefix(h, Segments(t), g, Segments(u));
    } else if i < |prefix| {
      assert prefix[i] == '/' && '/' !in submitted;
      SlashBelow(prefix, submitted);
      assert |Segments(prefix)| >= 2 && |Segments(submitted)| == 1;
    } else if j < |submitted| {
      var g, u := submitted[..j], submitted[j + 1..];
      assert submitted == g + "/" + u && '/' !in prefix && submitted[j] == '/';
      SegmentsCons(g, u);
      SegmentsCons(prefix, "");
      ConsPrefix(prefix, [], g, Segments(u));
      assert [prefix] + [] == Segments(prefix);
      FirstOnly(prefix, g, u);
    } else {
      SlashBelow(prefix, submitted);
      assert submitted[..j] == submitted && '/' !in submitted;
      ConsPrefix(prefix, [], submitted, []);
      assert [prefix] + [] == Segments(prefix) && [submitted] + [] == Segments(submitted);
    }
  }

  lemma SlashBelow(prefix: string, submitted: string)
    ensures prefix + "/" <= submitted ==> '/' in submitted
  {
    if prefix + "/" <= submitted { assert submitted[|prefix|] == '/'; }
  }

  lemma ConsPrefix(h: string, t: seq<string>, g: string, u: seq<string>)
    ensures [h] + t <= [g] + u <==> h == g && t <= u
  {
    if [h] + t <= [g] + u {
      assert ([h] + t)[0] == ([g] + u)[0];
      assert ([g] + u)[..1 + |t|] == [h] + t;
      assert u[..|t|] == ([g] + u)[1..1 + |t|] == t;
    }
  }

  lemma FirstOnly(prefix: string, g: string, u: string)
    requires '/' !in prefix && '/' !in g
    ensures g + "/" + u != prefix
    ensures prefix + "/" <= g + "/" + u <==> prefix == g
  {
    var s := g + "/" + u;
    assert s[|g|] == '/';
    if prefix + "/" <= s {
      assert s == prefix + "/" + s[|prefix| + 1..];
      SplitAt(prefix, s[|prefix| + 1..], g, u, '/');
    }
  }

  lemma HeadsAgree(h: string, t: string, g: string, u: string)
    requires '/' !in h && '/' !in g
    ensures (g + "/" + u == h + "/" + t || h + "/" + t + "/" <= g + "/" + u) <==> h == g && (u == t || t + "/" <= u)
  {
    var s := g + "/" + u;
    if s == h + "/" + t {
      SplitAt(g, u, h, t, '/');
    } else if h + "/" + t + "/" <= s {
      var more := s[|h| + 1 + |t| + 1..];
      assert s == h + "/" + (t + "/" + more);
      SplitAt(h, t + "/" + more, g, u, '/');
    }
    if h == g && t + "/" <= u {
      assert s == h + "/" + t + "/" + u[|t| + 1..];
    }
  }

  // The path of a source, with every slash at its end taken off.
  lemma {:induction false} StripSlashesSpec(s: string)
    ensures var t := StripSlashes(s);
      t <= s && (t == "" || t[|t| - 1] != '/') && forall i :: |t| <= i < |s| ==> s[i] == '/'
  {
    if s != "" && s[|s| - 1] == '/' {
      StripSlashesSpec(s[..|s| - 1]);
      assert s == s[..|s| - 1] + ['/'];
    }
  }

  predicate IsArticlePath(path: string, date: string, number: string) {
    && |date| == 8 && Digits(date) && number != "" && Digits(number)
    && path == "/articles/" + date + "-OHT1T" + number + ".html"
  }

  lemma ArticleParts(path: string)
    requires IsHochiArticle(path)
    ensures IsArticlePath(path, path[10..18], path[24..|path| - 5])
  {
    assert path == path[..10] + path[10..18] + path[18..24] + path[24..|path| - 5] + path[|path| - 5..];
  }

  lemma ArticleOf(path: string, date: string, number: string)
    requires IsArticlePath(path, date, number)
    ensures IsHochiArticle(path)
  {
    assert path[..10] == "/articles/" && path[10..18] == date && path[18..24] == "-OHT1T";
    assert path[24..|path| - 5] == number && path[|path| - 5..] == ".html";
  }

  lemma HochiArticleIff(path: string)
    ensures IsHochiArticle(path) <==> exists date, number :: IsArticlePath(path, date, number)
  {
    if IsHochiArticle(path) { ArticleParts(path); }
    if date, number :| IsArticlePath(path, date, number) { ArticleOf(path, date, number); }
  }

  // Whether the path lies at or below the source's own.
  predicate Covers(source: Source, path: string) {
    Prefix(source) == "" || Segments(Prefix(source)) <= Segments(path)
  }

  // A registered source of the host the URL may belong to.
  predicate Fits(source: Source, hostname: string, path: string) {
    && source.hostname == hostname
    && (Covers(source, path) || (source.sourceId == HOCHI && IsHochiArticle(path)))
  }

  lemma FitsIff(source: Source, hostname: string, path: string)
    ensures SourceMatches(source, hostname, path) <==> Fits(source, hostname, path)
  {
    PathMatchesIff(path, Prefix(source));
  }

  predicate OnlyLongest(sources: multiset<Source>, hostname: string, path: string, s: Source) {
    && sources[s] == 1 && Fits(s, hostname, path)
    && forall o :: o in sources && o != s && Fits(o, hostname, path) ==> |Prefix(o)| < |Prefix(s)|
  }

  // A URL is matched to a source exactly when the source is registered once for its host, the source's segments begin
  // the URL's (or it is the one exception), and every other source of the host that fits has a shorter path. Without
  // one that fits the URL is unsupported; otherwise it is ambiguous.
  lemma ChosenIff(sources: multiset<Source>, hostname: string, path: string, r: Result<Source, MatchError>)
    requires Chosen(sources, hostname, path, r)
    ensures r.Ok? <==> exists s :: s in sources && OnlyLongest(sources, hostname, path, s)
    ensures r.Ok? ==> r.value in sources && OnlyLongest(sources, hostname, path, r.value)
    ensures r == Err(Unsupported) <==> forall o :: o in sources ==> !Fits(o, hostname, path)
  {
    forall o ensures SourceMatches(o, hostname, path) <==> Fits(o, hostname, path) { FitsIff(o, hostname, path); }
  }
}
