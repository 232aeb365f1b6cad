// The canonical query of an article URL: tracking parameters dropped, the rest sorted, printed again.
//
// Texts are the octets of their UTF-8 form, one character each. Reading and printing follow the
// application/x-www-form-urlencoded format (section 5 of the WHATWG URL Standard) as the source uses it.

module QueryCanonical {
  import opened Text
  import opened Sorting

  type Pair = (string, string)

  predicate Octets(s: string) {
    forall i :: 0 <= i < |s| ==> s[i] as int < 256
  }

  predicate OctetPairs(pairs: seq<Pair>) {
    forall p :: p in pairs ==> Octets(p.0) && Octets(p.1)
  }

  // ---- Percent encoding ----

  function HexValue(c: char): int {
    if '0' <= c <= '9' then c as int - '0' as int
    else if 'a' <= c <= 'f' then c as int - 'a' as int + 10
    else if 'A' <= c <= 'F' then c as int - 'A' as int + 10
    else -1
  }

  function HexChar(n: nat): char
    requires n < 16
  {
    if n < 10 then '0' + n as char else 'A' + (n - 10) as char
  }

  function Unquote(s: string): string
    decreases |s|
  {
    if s == "" then ""
    else if |s| >= 3 && s[0] == '%' && HexValue(s[1]) >= 0 && HexValue(s[2]) >= 0
    then [(16 * HexValue(s[1]) + HexValue(s[2])) as char] + Unquote(s[3..])
    else [s[0]] + Unquote(s[1..])
  }

  function PlusToSpace(s: string): string {
    if s == "" then "" else [if s[0] == '+' then ' ' else s[0]] + PlusToSpace(s[1..])
  }

  function Decode(s: string): string {
    Unquote(PlusToSpace(s))
  }

  predicate Unreserved(c: char) {
    || 'a' <= c <= 'z' || 'A' <= c <= 'Z' || '0' <= c <= '9'
    || c == '_' || c == '.' || c == '-' || c == '~'
  }

  function QuoteChar(c: char): string {
    if Unreserved(c) then [c]
    else if c == ' ' then "+"
    else ['%', HexChar(c as int / 16 % 16), HexChar(c as int % 16)]
  }

  function Encode(s: string): string {
    if s == "" then "" else QuoteChar(s[0]) + Encode(s[1..])
  }

  // ---- Query strings ----

  function Find(s: string, c: char): (i: nat)
    ensures i <= |s| && c !in s[..i] && (i < |s| ==> s[i] == c)
  {
    if s == "" || s[0] == c then 0 else 1 + Find(s[1..], c)
  }

  // name=value, or a name alone.
  function ParseItem(item: string): Pair {
    var i := Find(item, '=');
    (Decode(item[..i]), Decode(if i < |item| then item[i + 1..] else ""))
  }

  function ParseOne(item: string): seq<Pair> {
    if item == "" then [] else [ParseItem(item)]
  }

  function ParseQsl(query: string): seq<Pair>
    decreases |query|
  {
    var i := Find(query, '&');
    if i == |query| then ParseOne(query) else ParseOne(query[..i]) + ParseQsl(query[i + 1..])
  }

  function PrintItem(p: Pair): string {
    Encode(p.0) + "=" + Encode(p.1)
  }

  function UrlEncode(pairs: seq<Pair>): string {
    if pairs == [] then ""
    else if |pairs| == 1 then PrintItem(pairs[0])
    else PrintItem(pairs[0]) + "&" + UrlEncode(pairs[1..])
  }

  // ---- The canonical query ----

  const TRACKING_PARAMETERS := {"fbclid", "gclid", "igshid", "mc_cid", "mc_eid", "ref", "ref_src"}

  predicate IsTracking(key: string) {
    "utm_" <= Lower(key) || Lower(key) in TRACKING_PARAMETERS
  }

  function WithoutTracking(pairs: seq<Pair>): seq<Pair> {
    if pairs == [] then []
    else (if IsTracking(pairs[0].0) then [] else [pairs[0]]) + WithoutTracking(pairs[1..])
  }

  predicate PairLe(a: Pair, b: Pair) {
    if a.0 == b.0 then StringLe(a.1, b.1) else StringLe(a.0, b.0)
  }

  function PairOrder(): (Pair, Pair) -> bool {
    (a: Pair, b: Pair) => PairLe(a, b)
  }

  // The parameters that identify the article.
  function Kept(query: string): seq<Pair> {
    WithoutTracking(ParseQsl(query))
  }

  function Canonical(query: string): string {
    UrlEncode(Sort(Kept(query), PairOrder()))
  }

  // ---- The codec round trip ----

  // Reading a printed character gives it back and goes on with what follows.
  lemma QuoteCharSpec(c: char, rest: string)
    requires c as int < 256
    ensures '&' !in QuoteChar(c) && '=' !in QuoteChar(c)
    ensures Decode(QuoteChar(c) + rest) == [c] + Decode(rest)
  {
    var q, after := QuoteChar(c), PlusToSpace(rest);
    PlusConcat(q, rest);
    if c == ' ' {
      assert q[1..] == "" && PlusToSpace(q) == " ";
      assert (" " + after)[1..] == after;
    } else if Unreserved(c) {
      NoPlus(q);
      assert (q + after)[1..] == after;
    } else {
      var high, low := c as int / 16, c as int % 16;
      assert high % 16 == high && q == ['%', HexChar(high), HexChar(low)];
      HexRoundTrip(high);
      HexRoundTrip(low);
      NoPlus(q);
      UnquoteHex(high, low, after);
    }
  }

  lemma UnquoteHex(high: nat, low: nat, after: string)
    requires high < 16 && low < 16
    ensures Unquote(['%', HexChar(high), HexChar(low)] + after) == [(16 * high + low) as char] + Unquote(after)
  {
    HexRoundTrip(high);
    HexRoundTrip(low);
    assert (['%', HexChar(high), HexChar(low)] + after)[3..] == after;
  }

  lemma {:induction false} NoPlus(s: string)
    requires '+' !in s
    ensures PlusToSpace(s) == s
  {
    if s != "" { NoPlus(s[1..]); }
  }

  lemma HexRoundTrip(n: nat)
    requires n < 16
    ensures HexValue(HexChar(n)) == n && HexChar(n) != '+' && HexChar(n) != '&' && HexChar(n) != '='
  {
  }

  lemma {:induction false} PlusConcat(a: string, b: string)
    ensures PlusToSpace(a + b) == PlusToSpace(a) + PlusToSpace(b)
  {
    if a == "" {
      assert a + b == b;
    } else {
      PlusConcat(a[1..], b);
      assert (a + b)[1..] == a[1..] + b;
    }
  }

  lemma {:induction false} DecodeEncode(s: string)
    requires Octets(s)
    ensures Decode(Encode(s)) == s
    ensures '&' !in Encode(s) && '=' !in Encode(s)
  {
    if s != "" {
      DecodeEncode(s[1..]);
      QuoteCharSpec(s[0], Encode(s[1..]));
      assert s == [s[0]] + s[1..];
    }
  }

  lemma {:induction false} FindOf(a: string, c: char, rest: string)
    requires c !in a
    ensures Find(a + [c] + rest, c) == |a| && Find(a, c) == |a|
  {
    if a != "" {
      assert (a + [c] + rest)[1..] == a[1..] + [c] + rest;
      FindOf(a[1..], c, rest);
    }
  }

  lemma ParsePrinted(p: Pair)
    requires Octets(p.0) && Octets(p.1)
    ensures ParseItem(PrintItem(p)) == p && '&' !in PrintItem(p) && PrintItem(p) != ""
  {
    DecodeEncode(p.0);
    DecodeEncode(p.1);
    FindOf(Encode(p.0), '=', Encode(p.1));
    var item := PrintItem(p);
    assert item == Encode(p.0) + ['='] + Encode(p.1);
    assert item[..|Encode(p.0)|] == Encode(p.0) && item[|Encode(p.0)| + 1..] == Encode(p.1);
  }

  // Reading a printed query gives back its pairs, in order.
  lemma {:induction false} ParseEncode(pairs: seq<Pair>)
    requires OctetPairs(pairs)
    ensures ParseQsl(UrlEncode(pairs)) == pairs
  {
    if pairs != [] {
      ParsePrinted(pairs[0]);
      var item := PrintItem(pairs[0]);
      if |pairs| == 1 {
        FindOf(item, '&', "");
      } else {
        ParseEncode(pairs[1..]);
        var rest := UrlEncode(pairs[1..]);
        var query := item + ['&'] + rest;
        FindOf(item, '&', rest);
        assert query[..|item|] == item && query[|item| + 1..] == rest;
      }
    }
  }

  // ---- Reading keeps octets, filtering and sorting keep pairs ----

  lemma {:induction false} UnquoteOctets(s: string)
    requires Octets(s)
    ensures Octets(Unquote(s))
    decreases |s|
  {
    if s != "" {
      if |s| >= 3 { UnquoteOctets(s[3..]); }
      UnquoteOctets(s[1..]);
    }
  }

  lemma {:induction false} PlusOctets(s: string)
    requires Octets(s)
    ensures Octets(PlusToSpace(s))
  {
    if s != "" { PlusOctets(s[1..]); }
  }

  lemma ItemOctets(item: string)
    requires Octets(item)
    ensures Octets(ParseItem(item).0) && Octets(ParseItem(item).1)
  {
    var i := Find(item, '=');
    var name, value := item[..i], if i < |item| then item[i + 1..] else "";
    PlusOctets(name);
    PlusOctets(value);
    UnquoteOctets(PlusToSpace(name));
    UnquoteOctets(PlusToSpace(value));
  }

  // The first item, and the rest of the query after its separator.
  lemma ParseStep(query: string)
    ensures var i := Find(query, '&');
      ParseQsl(query) ==
        if i < |query| then ParseOne(query[..i]) + ParseQsl(query[i + 1..]) else ParseOne(query[..i])
  {
    hide ParseOne;
    hide Find;
    var i := Find(query, '&');
    if i == |query| { assert query[..i] == query; }
  }

  lemma OneOctets(item: string)
    requires Octets(item)
    ensures OctetPairs(ParseOne(item))
  {
    ItemOctets(item);
  }

  lemma OctetsConcat(a: seq<Pair>, b: seq<Pair>)
    requires OctetPairs(a) && OctetPairs(b)
    ensures OctetPairs(a + b)
  {
  }

  lemma {:induction false} ParseOctets(query: string)
    requires Octets(query)
    ensures OctetPairs(ParseQsl(query))
    decreases |query|
  {
    hide ParseQsl;
    hide ParseOne;
    var i := Find(query, '&');
    ParseStep(query);
    OneOctets(query[..i]);
    if i < |query| {
      ParseOctets(query[i + 1..]);
      OctetsConcat(ParseOne(query[..i]), ParseQsl(query[i + 1..]));
    }
  }

  lemma {:induction false} WithoutTrackingSpec(pairs: seq<Pair>)
    ensures forall p :: p in WithoutTracking(pairs) <==> p in pairs && !IsTracking(p.0)
  {
    if pairs != [] {
      WithoutTrackingSpec(pairs[1..]);
      assert pairs == [pairs[0]] + pairs[1..];
    }
  }

  lemma {:induction false} NothingToDrop(pairs: seq<Pair>)
    requires forall p :: p in pairs ==> !IsTracking(p.0)
    ensures WithoutTracking(pairs) == pairs
  {
    if pairs != [] {
      assert pairs[0] in pairs;
      NothingToDrop(pairs[1..]);
      assert pairs == [pairs[0]] + pairs[1..];
    }
  }

  lemma PairOrderSpec()
    ensures TotalPreorder(PairOrder())
    ensures forall a: Pair, b: Pair :: PairLe(a, b) && PairLe(b, a) ==> a == b
  {
    forall a: Pair, b: Pair ensures PairLe(a, b) || PairLe(b, a)
      ensures PairLe(a, b) && PairLe(b, a) ==> a == b
    {
      StringLeTotal(a.0, b.0);
      StringLeTotal(a.1, b.1);
    }
    forall a: Pair, b: Pair, c: Pair | PairLe(a, b) && PairLe(b, c) ensures PairLe(a, c) {
      if StringLe(a.0, b.0) && StringLe(b.0, c.0) { StringLeTransitive(a.0, b.0, c.0); }
      if StringLe(a.1, b.1) && StringLe(b.1, c.1) { StringLeTransitive(a.1, b.1, c.1); }
      StringLeTotal(a.0, b.0);
      StringLeTotal(b.0, c.0);
    }
  }

  lemma SortedKept(query: string)
    requires Octets(query)
    ensures var sorted := Sort(Kept(query), PairOrder());
      && OctetPairs(sorted) && SortedBy(sorted, PairOrder()) && multiset(sorted) == multiset(Kept(query))
      && forall p :: p in sorted ==> !IsTracking(p.0)
  {
    ParseOctets(query);
    WithoutTrackingSpec(ParseQsl(query));
    PairOrderSpec();
    SortSpec(Kept(query), PairOrder());
    var sorted := Sort(Kept(query), PairOrder());
    forall p | p in sorted ensures p in Kept(query) { assert p in multiset(sorted); }
  }

  // ---- The results ----

  // The canonical query reads back as the kept parameters in sorted order.
  lemma CanonicalReads(query: string)
    requires Octets(query)
    ensures ParseQsl(Canonical(query)) == Sort(Kept(query), PairOrder())
    ensures Kept(Canonical(query)) == Sort(Kept(query), PairOrder())
  {
    SortedKept(query);
    ParseEncode(Sort(Kept(query), PairOrder()));
    NothingToDrop(Sort(Kept(query), PairOrder()));
  }

  // Canonicalising twice changes nothing.
  lemma CanonicalIdempotent(query: string)
    requires Octets(query)
    ensures Canonical(Canonical(query)) == Canonical(query)
  {
    SortedKept(query);
    CanonicalReads(query);
    SortIdentity(Sort(Kept(query), PairOrder()), PairOrder());
  }

  // Two queries have one canonical form exactly when they carry the same parameters besides tracking ones,
  // each as often, in whatever order and however they are escaped.
  lemma CanonicalIff(query: string, other: string)
    requires Octets(query) && Octets(other)
    ensures Canonical(query) == Canonical(other) <==> multiset(Kept(query)) == multiset(Kept(other))
  {
    SortedKept(query);
    SortedKept(other);
    if Canonical(query) == Canonical(other) {
      CanonicalReads(query);
      CanonicalReads(other);
    }
    if multiset(Kept(query)) == multiset(Kept(other)) {
      PairOrderSpec();
      SortedUnique(Sort(Kept(query), PairOrder()), Sort(Kept(other), PairOrder()), PairOrder());
    }
  }

  // ---- The case of the digits of an escape ----

  predicate IsHex(c: char) {
    '0' <= c <= '9' || 'a' <= c <= 'f' || 'A' <= c <= 'F'
  }

  function Capital(c: char): char {
    if 'a' <= c <= 'f' then (c as int - 32) as char else c
  }

  predicate StartsEscape(s: string) {
    |s| >= 3 && s[0] == '%' && IsHex(s[1]) && IsHex(s[2])
  }

  // Every escape with capital digits.
  function CapitalEscapes(s: string): string
    decreases |s|
  {
    if s == "" then ""
    else if StartsEscape(s) then ['%', Capital(s[1]), Capital(s[2])] + CapitalEscapes(s[3..])
    else [s[0]] + CapitalEscapes(s[1..])
  }

  lemma {:induction false} CapitalKeeps(s: string)
    ensures |CapitalEscapes(s)| == |s|
    ensures forall i :: 0 <= i < |s| ==>
      CapitalEscapes(s)[i] == s[i] || (IsHex(s[i]) && IsHex(CapitalEscapes(s)[i]) && HexValue(s[i]) >= 10)
    decreases |s|
  {
    if s != "" {
      CapitalKeeps(s[1..]);
      if |s| >= 3 { CapitalKeeps(s[3..]); }
    }
  }

  lemma HexOfCapital(c: char)
    ensures HexValue(c) >= 0 <==> IsHex(c)
    ensures HexValue(Capital(c)) == HexValue(c)
  {
  }

  lemma {:induction false} UnquoteCapital(s: string)
    ensures Unquote(CapitalEscapes(s)) == Unquote(s)
    decreases |s|
  {
    if s != "" {
      var t := CapitalEscapes(s);
      CapitalKeeps(s);
      if |s| >= 3 {
        HexOfCapital(s[1]);
        HexOfCapital(s[2]);
        HexOfCapital(t[1]);
        HexOfCapital(t[2]);
      }
      if StartsEscape(s) {
        UnquoteCapital(s[3..]);
        assert t[3..] == CapitalEscapes(s[3..]);
      } else {
        UnquoteCapital(s[1..]);
        assert t[1..] == CapitalEscapes(s[1..]);
      }
    }
  }

  lemma {:induction false} PlusCapital(s: string)
    ensures PlusToSpace(CapitalEscapes(s)) == CapitalEscapes(PlusToSpace(s))
    decreases |s|
  {
    if s != "" {
      var p := PlusToSpace(s);
      assert p[1..] == PlusToSpace(s[1..]);
      if |s| >= 3 {
        assert p[2..] == PlusToSpace(s[1..])[1..] == PlusToSpace(s[2..]);
        assert p[3..] == PlusToSpace(s[2..])[1..] == PlusToSpace(s[3..]);
      }
      if StartsEscape(s) {
        PlusCapital(s[3..]);
        var head := ['%', Capital(s[1]), Capital(s[2])];
        NoPlus(head);
        PlusConcat(head, CapitalEscapes(s[3..]));
      } else {
        PlusCapital(s[1..]);
        PlusConcat([s[0]], CapitalEscapes(s[1..]));
      }
    }
  }

  lemma DecodeCapital(s: string)
    ensures Decode(CapitalEscapes(s)) == Decode(s)
  {
    PlusCapital(s);
    UnquoteCapital(PlusToSpace(s));
  }

  lemma Regroup(x: string, y: string, c: char, z: string)
    ensures x + (y + [c] + z) == x + y + [c] + z
  {
  }

  lemma SameStart(a: string, c: char, b: string)
    requires a != "" && !IsHex(c)
    ensures var s := a + [c] + b;
      && StartsEscape(s) == StartsEscape(a) && s[0] == a[0] && s[1..] == a[1..] + [c] + b
      && (StartsEscape(a) ==> s[1] == a[1] && s[2] == a[2] && s[3..] == a[3..] + [c] + b)
  {
    var s := a + [c] + b;
    if |a| < 3 { assert s[|a|] == c; }
  }

  // No escape reaches over a separator.
  lemma {:induction false} CapitalSplit(a: string, c: char, b: string)
    requires !IsHex(c) && c != '%'
    ensures CapitalEscapes(a + [c] + b) == CapitalEscapes(a) + [c] + CapitalEscapes(b)
    decreases |a|
  {
    if a == "" {
      assert a + [c] + b == [c] + b && ([c] + b)[1..] == b;
    } else {
      SameStart(a, c, b);
      if StartsEscape(a) {
        CapitalSplit(a[3..], c, b);
        Regroup(['%', Capital(a[1]), Capital(a[2])], CapitalEscapes(a[3..]), c, CapitalEscapes(b));
      } else {
        CapitalSplit(a[1..], c, b);
        Regroup([a[0]], CapitalEscapes(a[1..]), c, CapitalEscapes(b));
      }
    }
  }

  lemma FindUnique(s: string, c: char, i: nat)
    requires i <= |s| && c !in s[..i] && (i < |s| ==> s[i] == c)
    ensures Find(s, c) == i
  {
  }

  lemma CapitalAvoids(s: string, c: char)
    requires !IsHex(c) && c !in s
    ensures c !in CapitalEscapes(s) && |CapitalEscapes(s)| == |s|
  {
    hide CapitalEscapes;
    CapitalKeeps(s);
  }

  lemma FindCapital(s: string, c: char)
    requires !IsHex(c) && c != '%'
    ensures var i, t := Find(s, c), CapitalEscapes(s);
      && Find(t, c) == i && |t| == |s| && t[..i] == CapitalEscapes(s[..i])
      && (i < |s| ==> t[i + 1..] == CapitalEscapes(s[i + 1..]))
  {
    hide CapitalEscapes;
    hide Find;
    var i, t := Find(s, c), CapitalEscapes(s);
    var head := CapitalEscapes(s[..i]);
    CapitalAvoids(s[..i], c);
    if i < |s| {
      var rest := CapitalEscapes(s[i + 1..]);
      assert s == s[..i] + [c] + s[i + 1..];
      CapitalSplit(s[..i], c, s[i + 1..]);
      CapitalKeeps(s[i + 1..]);
      assert t[..i] == head && t[i] == c && t[i + 1..] == rest;
    } else {
      assert s[..i] == s && t[..i] == t;
    }
    FindUnique(t, c, i);
  }

  lemma ItemCapital(item: string)
    ensures ParseItem(CapitalEscapes(item)) == ParseItem(item)
  {
    var i := Find(item, '=');
    FindCapital(item, '=');
    DecodeCapital(item[..i]);
    if i < |item| { DecodeCapital(item[i + 1..]); }
  }

  lemma OneCapital(item: string)
    ensures ParseOne(CapitalEscapes(item)) == ParseOne(item)
  {
    CapitalKeeps(item);
    ItemCapital(item);
  }

  lemma {:induction false} ParseCapital(query: string)
    ensures ParseQsl(CapitalEscapes(query)) == ParseQsl(query)
    decreases |query|
  {
    hide ParseQsl;
    hide ParseOne;
    hide CapitalEscapes;
    var i := Find(query, '&');
    FindCapital(query, '&');
    ParseStep(query);
    ParseStep(CapitalEscapes(query));
    OneCapital(query[..i]);
    if i < |query| { ParseCapital(query[i + 1..]); }
  }

  // Two queries that differ only in the case of escape digits have one canonical form.
  lemma EscapeCaseIgnored(query: string, other: string)
    requires CapitalEscapes(query) == CapitalEscapes(other)
    ensures Canonical(query) == Canonical(other)
  {
    ParseCapital(query);
    ParseCapital(other);
  }

  lemma TrackingNames(key: string)
    ensures IsTracking(key) <==>
      (|key| >= 4 && Lower(key[..4]) == "utm_")
      || Lower(key) in ["fbclid", "gclid", "igshid", "mc_cid", "mc_eid", "ref", "ref_src"]
  {
    if |key| >= 4 { assert Lower(key)[..4] == Lower(key[..4]); }
  }

  lemma KeptCons(p: Pair, pairs: seq<Pair>)
    requires OctetPairs([p] + pairs) && OctetPairs(pairs)
    ensures Kept(UrlEncode(pairs)) == WithoutTracking(pairs)
    ensures Kept(UrlEncode([p] + pairs)) == (if IsTracking(p.0) then [] else [p]) + WithoutTracking(pairs)
  {
    ParseEncode([p] + pairs);
    ParseEncode(pairs);
    assert ([p] + pairs)[1..] == pairs;
  }

  // One more parameter leaves the canonical query as it is exactly when its name, whatever its case, begins with utm_
  // or is one of the seven listed.
  lemma TrackingIgnored(p: Pair, pairs: seq<Pair>)
    requires OctetPairs([p] + pairs) && OctetPairs(pairs)
    ensures Canonical(UrlEncode([p] + pairs)) == Canonical(UrlEncode(pairs)) <==>
      (|p.0| >= 4 && Lower(p.0[..4]) == "utm_")
      || Lower(p.0) in ["fbclid", "gclid", "igshid", "mc_cid", "mc_eid", "ref", "ref_src"]
  {
    hide Canonical;
    hide Kept;
    hide IsTracking;
    KeptCons(p, pairs);
    EncodedOctets([p] + pairs);
    EncodedOctets(pairs);
    CanonicalIff(UrlEncode([p] + pairs), UrlEncode(pairs));
    TrackingNames(p.0);
    assert [] + WithoutTracking(pairs) == WithoutTracking(pairs);
    assert |multiset([p] + WithoutTracking(pairs))| == 1 + |multiset(WithoutTracking(pairs))|;
  }

  lemma {:induction false} EncodeOctets(s: string)
    requires Octets(s)
    ensures Octets(Encode(s))
  {
    if s != "" { EncodeOctets(s[1..]); }
  }

  lemma {:induction false} EncodedOctets(pairs: seq<Pair>)
    requires OctetPairs(pairs)
    ensures Octets(UrlEncode(pairs))
  {
    if pairs != [] {
      EncodeOctets(pairs[0].0);
      EncodeOctets(pairs[0].1);
      EncodedOctets(pairs[1..]);
    }
  }

  // The canonical query lists its parameters by name, and those of one name by value, both as strings.
  lemma CanonicalInOrder(query: string, i: nat, j: nat)
    requires Octets(query) && i < j < |ParseQsl(Canonical(query))|
    ensures var a, b := ParseQsl(Canonical(query))[i], ParseQsl(Canonical(query))[j];
      if a.0 == b.0 then a.1 <= b.1 || exists k: nat :: SmallerAt(a.1, b.1, k)
      else a.0 <= b.0 || exists k: nat :: SmallerAt(a.0, b.0, k)
  {
    SortedKept(query);
    CanonicalReads(query);
    var a, b := ParseQsl(Canonical(query))[i], ParseQsl(Canonical(query))[j];
    assert PairLe(a, b);
    StringLeSpec(a.0, b.0);
    StringLeSpec(a.1, b.1);
  }
}
