// Storage keys as the workers print them, and the file each key names under the storage root.

module StorageKeys {
  import opened Wrappers
  import opened Text

  // A target file, as the path components below the root.
  type Path = seq<string>

  predicate IsUuid(s: string) {
    |s| == 36 && forall i :: 0 <= i < |s| ==> IsHexDigit(s[i]) || s[i] == '-'
  }

  function Digit(n: nat): char
    requires n < 10
  {
    '0' + n as char
  }

  function Decimal(n: nat): string {
    if n < 10 then [Digit(n)] else Decimal(n / 10) + [Digit(n % 10)]
  }

  // Components joined by "/".
  function Join(parts: seq<string>): string
    requires parts != []
  {
    if |parts| == 1 then parts[0] else parts[0] + "/" + Join(parts[1..])
  }

  // media/audio/{media_production_id}/v{audio_version}.{audio_format}
  function AudioKey(mediaProductionId: string, audioVersion: nat, audioFormat: string): string {
    Join(["media", "audio", mediaProductionId, "v" + Decimal(audioVersion) + "." + audioFormat])
  }

  // media/video/{media_production_id}/v{video_version}/a{attempt}.{video_format}
  function VideoKey(mediaProductionId: string, videoVersion: nat, attempt: nat, videoFormat: string): string {
    Join(["media", "video", mediaProductionId, "v" + Decimal(videoVersion), "a" + Decimal(attempt) + "." + videoFormat])
  }

  function FirstSlash(s: string): (i: nat)
    ensures i <= |s| && '/' !in s[..i] && (i < |s| ==> s[i] == '/')
  {
    if s == "" || s[0] == '/' then 0 else 1 + FirstSlash(s[1..])
  }

  function Keep(part: string): Path {
    if part == "" || part == "." then [] else [part]
  }

  // The components of a POSIX path: empty and "." components collapse.
  function Parts(s: string): Path
    decreases |s|
  {
    var i := FirstSlash(s);
    if i == |s| then Keep(s) else Keep(s[..i]) + Parts(s[i + 1..])
  }

  // A key is refused unless it is a relative path with no backslash and no parent component.
  function TargetForKey(storageKey: string): Result<Path, DomainError> {
    var normalized := Strip(storageKey);
    if normalized == "" || '\\' in normalized then Err(InvalidData)
    else if normalized[0] == '/' || ".." in Parts(normalized) then Err(InvalidData)
    else Ok(Parts(normalized))
  }

  function VideoPath(mediaProductionId: string, videoVersion: nat, attempt: nat): Path {
    ["media", "video", mediaProductionId, "v" + Decimal(videoVersion), "a" + Decimal(attempt) + ".mp4"]
  }

  lemma {:induction false} FirstSlashOf(a: string, rest: string)
    requires '/' !in a
    ensures FirstSlash(a + "/" + rest) == |a|
    ensures FirstSlash(a) == |a|
  {
    var s := a + "/" + rest;
    if a != "" {
      assert s[1..] == a[1..] + "/" + rest;
      FirstSlashOf(a[1..], rest);
    }
  }

  lemma PartsCons(a: string, rest: string)
    requires '/' !in a
    ensures Parts(a + "/" + rest) == Keep(a) + Parts(rest)
    ensures Parts(a) == Keep(a)
  {
    FirstSlashOf(a, rest);
    var s := a + "/" + rest;
    assert s[..|a|] == a && s[|a| + 1..] == rest;
  }

  lemma {:induction false} DecimalDigits(n: nat)
    ensures |Decimal(n)| >= 1
    ensures forall i :: 0 <= i < |Decimal(n)| ==> '0' <= Decimal(n)[i] <= '9'
  {
    if n >= 10 { DecimalDigits(n / 10); }
  }

  lemma {:induction false} DecimalInjective(m: nat, n: nat)
    requires Decimal(m) == Decimal(n)
    ensures m == n
  {
    var s, t := Decimal(m), Decimal(n);
    DecimalDigits(m / 10);
    DecimalDigits(n / 10);
    if m >= 10 && n >= 10 {
      assert s[..|s| - 1] == Decimal(m / 10) && t[..|t| - 1] == Decimal(n / 10);
      DecimalInjective(m / 10, n / 10);
      assert s[|s| - 1] == Digit(m % 10) && t[|t| - 1] == Digit(n % 10);
    } else if m < 10 && n < 10 {
      assert s[0] == t[0];
    }
  }

  // A component no reading of the key can change.
  predicate Plain(part: string) {
    && part != "" && '/' !in part && '\\' !in part && part[0] != '.'
    && !IsSpace(part[0]) && !IsSpace(part[|part| - 1])
  }

  predicate AllPlain(parts: seq<string>) {
    forall i :: 0 <= i < |parts| ==> Plain(parts[i])
  }

  lemma {:induction false} JoinOfPlain(parts: seq<string>)
    requires parts != [] && AllPlain(parts)
    ensures Parts(Join(parts)) == parts
    ensures Join(parts) != "" && Join(parts)[0] == parts[0][0]
    ensures Join(parts)[|Join(parts)| - 1] == parts[|parts| - 1][|parts[|parts| - 1]| - 1]
  {
    assert Plain(parts[0]);
    PartsCons(parts[0], "");
    if |parts| > 1 {
      JoinOfPlain(parts[1..]);
      JoinStart(parts);
      assert parts == [parts[0]] + parts[1..];
    }
  }

  lemma {:induction false} JoinHasNoBackslash(parts: seq<string>)
    requires parts != [] && AllPlain(parts)
    ensures '\\' !in Join(parts)
  {
    assert Plain(parts[0]);
    if |parts| > 1 { JoinHasNoBackslash(parts[1..]); }
  }

  // A key built from plain components names the file with those components.
  lemma TargetOfPlainKey(parts: seq<string>)
    requires parts != [] && AllPlain(parts)
    ensures TargetForKey(Join(parts)) == Ok(parts)
    ensures Stripped(Join(parts)) && Join(parts) != ""
  {
    JoinOfPlain(parts);
    JoinHasNoBackslash(parts);
    assert Plain(parts[0]) && Plain(parts[|parts| - 1]);
    StripIsNormal(Join(parts));
    assert !Plain("..");
  }

  lemma PlainComponents(m: string, n: nat)
    requires IsUuid(m)
    ensures Plain(m) && '/' !in Decimal(n) && '.' !in Decimal(n)
    ensures Plain("v" + Decimal(n)) && Plain("a" + Decimal(n) + ".mp4")
  {
    DecimalDigits(n);
    var v, a := "v" + Decimal(n), "a" + Decimal(n) + ".mp4";
    assert v[|v| - 1] == Decimal(n)[|Decimal(n)| - 1];
    assert a[|a| - 1] == '4';
  }

  // The printed video key names exactly the file VideoPath gives.
  lemma TargetOfVideoKey(m: string, videoVersion: nat, attempt: nat)
    requires IsUuid(m)
    ensures TargetForKey(VideoKey(m, videoVersion, attempt, "mp4")) == Ok(VideoPath(m, videoVersion, attempt))
    ensures Stripped(VideoKey(m, videoVersion, attempt, "mp4")) && VideoKey(m, videoVersion, attempt, "mp4") != ""
  {
    PlainComponents(m, videoVersion);
    PlainComponents(m, attempt);
    assert "a" + Decimal(attempt) + "." + "mp4" == "a" + Decimal(attempt) + ".mp4";
    TargetOfPlainKey(VideoPath(m, videoVersion, attempt));
  }

  // Different media, versions or attempts never share a file.
  lemma VideoPathInjective(m: string, v: nat, n: nat, m': string, v': nat, n': nat)
    requires VideoPath(m, v, n) == VideoPath(m', v', n')
    ensures m == m' && v == v' && n == n'
  {
    var p, q := VideoPath(m, v, n), VideoPath(m', v', n');
    assert p[2] == m && q[2] == m';
    assert p[3][1..] == Decimal(v) && q[3][1..] == Decimal(v');
    DecimalInjective(v, v');
    assert p[4][1..|p[4]| - 4] == Decimal(n) && q[4][1..|q[4]| - 4] == Decimal(n');
    DecimalInjective(n, n');
  }

  // The printed key itself is injective for every format, accepted or not.
  lemma VideoKeyInjective(m: string, v: nat, n: nat, f: string, m': string, v': nat, n': nat, f': string)
    requires IsUuid(m) && IsUuid(m')
    requires VideoKey(m, v, n, f) == VideoKey(m', v', n', f')
    ensures m == m' && v == v' && n == n' && f == f'
  {
    PlainComponents(m, v);
    PlainComponents(m', v');
    var a, a' := "a" + Decimal(n) + "." + f, "a" + Decimal(n') + "." + f';
    var p, p' := ["media", "video", m, "v" + Decimal(v), a], ["media", "video", m', "v" + Decimal(v'), a'];
    JoinInjectiveHead(p, p');
    JoinInjectiveHead(p[1..], p'[1..]);
    JoinInjectiveHead(p[2..], p'[2..]);
    JoinInjectiveHead(p[3..], p'[3..]);
    assert p[1..][1..] == p[2..] && p[2..][1..] == p[3..] && p[3..][1..] == [a] && p'[3..][1..] == [a'];
    assert a == a';
    assert ("v" + Decimal(v))[1..] == Decimal(v) && ("v" + Decimal(v'))[1..] == Decimal(v');
    DecimalInjective(v, v');
    PlainComponents(m, n);
    PlainComponents(m', n');
    assert a[1..] == Decimal(n) + "." + f && a'[1..] == Decimal(n') + "." + f';
    SplitAt(Decimal(n), f, Decimal(n'), f', '.');
    DecimalInjective(n, n');
  }

  lemma JoinInjectiveHead(p: seq<string>, q: seq<string>)
    requires |p| >= 2 && |q| >= 2 && Join(p) == Join(q) && '/' !in p[0] && '/' !in q[0]
    ensures p[0] == q[0] && Join(p[1..]) == Join(q[1..])
  {
    SplitAt(p[0], Join(p[1..]), q[0], Join(q[1..]), '/');
  }

  // Text before the first separator is determined by the whole.
  lemma SplitAt(a: string, b: string, a': string, b': string, sep: char)
    requires sep !in a && sep !in a' && a + [sep] + b == a' + [sep] + b'
    ensures a == a' && b == b'
  {
    var s := a + [sep] + b;
    assert s[|a|] == sep && s[|a'|] == sep;
    assert (forall i :: 0 <= i < |a| ==> s[i] == a[i]) && (forall i :: 0 <= i < |a'| ==> s[i] == a'[i]);
    assert a == s[..|a|] && a' == s[..|a|];
    assert b == s[|a| + 1..] && b' == s[|a| + 1..];
  }

  // Every accepted audio key of a media stays in that media's own directory, away from every video file.
  lemma AudioTargetPlace(m: string, audioVersion: nat, audioFormat: string)
    requires IsUuid(m) && audioFormat != "" && Stripped(audioFormat)
    ensures var target := TargetForKey(AudioKey(m, audioVersion, audioFormat));
      target.Ok? ==> |target.value| >= 3 && target.value[1] == "audio" && target.value[2] == m
    ensures Stripped(AudioKey(m, audioVersion, audioFormat)) && AudioKey(m, audioVersion, audioFormat) != ""
  {
    PlainComponents(m, audioVersion);
    var last := "v" + Decimal(audioVersion) + "." + audioFormat;
    var p := ["media", "audio", m, last];
    JoinStart(p);
    JoinStart(p[1..]);
    JoinStart(p[2..]);
    assert p[1..][1..] == p[2..] && p[2..][1..] == [last];
    var key := Join(p);
    assert last[|last| - 1] == audioFormat[|audioFormat| - 1];
    StripIsNormal(key);
  }

  lemma JoinStart(p: seq<string>)
    requires |p| >= 2 && Plain(p[0])
    ensures Parts(Join(p)) == [p[0]] + Parts(Join(p[1..]))
    ensures Join(p) != "" && Join(p)[0] == p[0][0]
    ensures Join(p[1..]) != "" ==> Join(p)[|Join(p)| - 1] == Join(p[1..])[|Join(p[1..])| - 1]
  {
    PartsCons(p[0], Join(p[1..]));
  }

  // ---- Which keys are accepted ----

  // s[i..j] is what stands between two slashes, or between one and an end.
  predicate ComponentAt(s: string, i: nat, j: nat) {
    && i <= j <= |s| && '/' !in s[i..j]
    && (i == 0 || s[i - 1] == '/') && (j == |s| || s[j] == '/')
  }

  predicate Component(s: string, p: string) {
    exists i: nat, j: nat :: i <= j <= |s| && ComponentAt(s, i, j) && s[i..j] == p
  }

  lemma ComponentShift(s: string, f: nat, i: nat, j: nat)
    requires f < |s| && s[f] == '/' && i <= j <= |s| - f - 1
    ensures s[f + 1..][i..j] == s[f + 1 + i..f + 1 + j]
    ensures ComponentAt(s[f + 1..], i, j) <==> ComponentAt(s, f + 1 + i, f + 1 + j)
  {
  }

  lemma ComponentBeforeSlash(s: string, i: nat, j: nat)
    requires ComponentAt(s, i, j) && i <= FirstSlash(s)
    ensures i == 0 && j == FirstSlash(s)
  {
  }

  lemma RestComponent(s: string, f: nat, p: string)
    requires f < |s| && s[f] == '/' && Component(s[f + 1..], p)
    ensures Component(s, p)
  {
    var rest := s[f + 1..];
    var i: nat, j: nat :| i <= j <= |rest| && ComponentAt(rest, i, j) && rest[i..j] == p;
    ComponentShift(s, f, i, j);
  }

  lemma FirstComponent(s: string)
    ensures Component(s, s[..FirstSlash(s)])
  {
    var f := FirstSlash(s);
    assert ComponentAt(s, 0, f) && s[0..f] == s[..f];
  }

  lemma FirstOrRest(s: string, p: string) returns (first: bool)
    requires Component(s, p)
    ensures if first then p == s[..FirstSlash(s)] else FirstSlash(s) < |s| && Component(s[FirstSlash(s) + 1..], p)
  {
    var f := FirstSlash(s);
    var i: nat, j: nat :| i <= j <= |s| && ComponentAt(s, i, j) && s[i..j] == p;
    first := i <= f;
    if first { ComponentBeforeSlash(s, i, j); } else { ComponentShift(s, f, i - f - 1, j - f - 1); }
  }

  lemma ComponentCons(s: string, p: string)
    ensures var i := FirstSlash(s);
      Component(s, p) <==> p == s[..i] || (i < |s| && Component(s[i + 1..], p))
  {
    hide Component;
    var f := FirstSlash(s);
    FirstComponent(s);
    if f < |s| && Component(s[f + 1..], p) { RestComponent(s, f, p); }
    if Component(s, p) { var first := FirstOrRest(s, p); }
  }

  lemma {:induction false} PartsAreComponents(s: string, p: string)
    ensures p in Parts(s) <==> p != "" && p != "." && Component(s, p)
    decreases |s|
  {
    var i := FirstSlash(s);
    ComponentCons(s, p);
    if i < |s| {
      PartsAreComponents(s[i + 1..], p);
    } else {
      assert s[..i] == s;
    }
  }

  // A key is accepted exactly when, without space around it, it is not empty, holds no backslash, does not begin with
  // a slash and has no component "..". The file it names then lies below the root: its components are those of the
  // key, without empty ones and ".".
  lemma TargetForKeyIff(storageKey: string, p: string)
    ensures var k := Strip(storageKey);
      && (TargetForKey(storageKey).Ok? <==> k != "" && '\\' !in k && k[0] != '/' && !Component(k, ".."))
      && (TargetForKey(storageKey).Ok? ==>
            (p in TargetForKey(storageKey).value <==> p != "" && p != "." && Component(k, p)))
  {
    PartsAreComponents(Strip(storageKey), "..");
    PartsAreComponents(Strip(storageKey), p);
  }
}
