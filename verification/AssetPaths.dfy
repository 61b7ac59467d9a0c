/** Runtime-relative asset paths and the framing of asset fingerprints (src/compiler/assets.rs). */
module AssetPaths {
  import opened Wrappers
  import opened Text
  import opened Normalizers
  import opened StringOrder

  /** `split('/')`. */
  function Parts(raw: string): (parts: seq<string>)
    ensures parts != []
    decreases |raw|
  {
    match SplitOnce(raw, '/')
    case None => [raw]
    case Some((part, rest)) =>
      SplitOnceParts(raw, '/');
      [part] + Parts(rest)
  }

  function JoinParts(parts: seq<string>): string {
    if |parts| == 0 then "" else if |parts| == 1 then parts[0] else parts[0] + ['/'] + JoinParts(parts[1..])
  }

  predicate IsKept(part: string) { part != "" && part != "." }

  function Kept(parts: seq<string>): seq<string> {
    if parts == [] then []
    else
      var n := |parts| - 1;
      Kept(parts[..n]) + (if IsKept(parts[n]) then [parts[n]] else [])
  }

  /** Trimmed, with forward slashes, without empty and `.` parts; never absolute, empty or with `..`. */
  function NormalPath(path: string): Option<string> {
    var raw := ForwardSlashes(Trim(path));
    if raw == "" || raw[0] == '/' || ".." in Parts(raw) || Kept(Parts(raw)) == [] then None
    else Some(JoinParts(Kept(Parts(raw))))
  }

  method NormalizeRuntimePath(path: string) returns (r: Option<string>)
    ensures r == NormalPath(path)
  {
    var raw := ForwardSlashes(Trim(path));
    if raw == "" || raw[0] == '/' { return None; }
    var all := Parts(raw);
    var parts := [];
    for i := 0 to |all|
      invariant parts == Kept(all[..i]) && ".." !in all[..i]
    {
      assert all[..i + 1][..i] == all[..i];
      if all[i] == "" || all[i] == "." { continue; }
      if all[i] == ".." { return None; }
      parts := parts + [all[i]];
    }
    assert all[..|all|] == all;
    if parts == [] { return None; }
    return Some(JoinParts(parts));
  }

  // ---------------------------------------------------------------- normal paths stay

  predicate IsPart(part: string) { IsKept(part) && part != ".." && '/' !in part && '\\' !in part }

  ghost predicate AllParts(parts: seq<string>) { forall i :: 0 <= i < |parts| ==> IsPart(parts[i]) }

  lemma {:induction false} PartsOfJoined(parts: seq<string>)
    requires AllParts(parts) && parts != []
    ensures Parts(JoinParts(parts)) == parts
  {
    var joined := JoinParts(parts);
    if |parts| == 1 {
      SplitOnceParts(joined, '/');
    } else {
      SplitOnceAt(parts[0], '/', JoinParts(parts[1..]));
      PartsOfJoined(parts[1..]);
    }
  }

  lemma {:induction false} PartsHaveNoSlash(raw: string)
    requires '\\' !in raw
    ensures forall i :: 0 <= i < |Parts(raw)| ==> '/' !in Parts(raw)[i] && '\\' !in Parts(raw)[i]
    decreases |raw|
  {
    SplitOnceParts(raw, '/');
    var split := SplitOnce(raw, '/');
    if split.Some? {
      assert forall c :: c in split.value.0 || c in split.value.1 ==> c in raw;
      PartsHaveNoSlash(split.value.1);
    }
  }

  lemma {:induction false} KeptAre(parts: seq<string>)
    ensures forall p :: p in Kept(parts) <==> p in parts && IsKept(p)
  {
    if parts != [] {
      var n := |parts| - 1;
      KeptAre(parts[..n]);
      assert parts == parts[..n] + [parts[n]];
    }
  }

  lemma {:induction false} KeptStay(parts: seq<string>)
    requires forall i :: 0 <= i < |parts| ==> IsKept(parts[i])
    ensures Kept(parts) == parts
  {
    if parts != [] {
      KeptStay(parts[..|parts| - 1]);
      assert parts == parts[..|parts| - 1] + [parts[|parts| - 1]];
    }
  }

  lemma NormalPathParts(path: string)
    requires NormalPath(path).Some?
    ensures AllParts(Kept(Parts(ForwardSlashes(Trim(path)))))
  {
    var raw := ForwardSlashes(Trim(path));
    assert '\\' !in raw;
    PartsHaveNoSlash(raw);
    KeptAre(Parts(raw));
    forall i | 0 <= i < |Kept(Parts(raw))| ensures IsPart(Kept(Parts(raw))[i]) {
      assert Kept(Parts(raw))[i] in Parts(raw);
    }
  }

  lemma {:induction false} JoinedChars(parts: seq<string>)
    requires AllParts(parts) && parts != []
    ensures JoinParts(parts) != "" && JoinParts(parts)[0] == parts[0][0]
    ensures JoinParts(parts)[|JoinParts(parts)| - 1] == parts[|parts| - 1][|parts[|parts| - 1]| - 1]
    ensures '\\' !in JoinParts(parts)
  {
    if |parts| > 1 { JoinedChars(parts[1..]); }
  }

  lemma JoinedIsNormal(parts: seq<string>)
    requires AllParts(parts) && parts != [] && Trimmed(JoinParts(parts))
    ensures NormalPath(JoinParts(parts)) == Some(JoinParts(parts))
  {
    var joined := JoinParts(parts);
    JoinedChars(parts);
    TrimTrims(joined);
    assert ForwardSlashes(joined) == joined;
    PartsOfJoined(parts);
    KeptStay(parts);
    assert ".." !in parts;
  }

  lemma {:induction false} JoinedPartsAre(raw: string)
    ensures JoinParts(Parts(raw)) == raw
    decreases |raw|
  {
    SplitOnceParts(raw, '/');
    var split := SplitOnce(raw, '/');
    if split.Some? { JoinedPartsAre(split.value.1); }
  }

  lemma {:induction false} JoinedLength(parts: seq<string>, last: string)
    ensures |JoinParts(parts + [last])| == |JoinParts(parts)| + |last| + if parts == [] then 0 else 1
  {
    if parts == [] {
      assert parts + [last] == [last];
    } else {
      assert (parts + [last])[1..] == parts[1..] + [last];
      JoinedLength(parts[1..], last);
    }
  }

  lemma {:induction false} KeptIsShorter(parts: seq<string>)
    ensures |JoinParts(Kept(parts))| <= |JoinParts(parts)|
  {
    if parts != [] {
      var n := |parts| - 1;
      KeptIsShorter(parts[..n]);
      assert parts == parts[..n] + [parts[n]];
      JoinedLength(parts[..n], parts[n]);
      JoinedLength(Kept(parts[..n]), parts[n]);
      assert Kept(parts[..n]) + [] == Kept(parts[..n]);
      assert parts[..n] == [] ==> Kept(parts[..n]) == [];
    }
  }

  /** Normalising gives no more characters than trimming. */
  lemma NormalPathIsShorter(path: string)
    requires NormalPath(path).Some?
    ensures |NormalPath(path).value| <= |Trim(path)|
  {
    var raw := ForwardSlashes(Trim(path));
    JoinedPartsAre(raw);
    KeptIsShorter(Parts(raw));
  }

  /** The parts a path is put together from. */
  function KeptParts(path: string): seq<string> { Kept(Parts(ForwardSlashes(Trim(path)))) }

  /** No white space before the first kept part or after the last one. */
  predicate PlainEnds(path: string)
    requires NormalPath(path).Some?
  {
    var kept := KeptParts(path);
    NormalPathParts(path);
    !IsSpace(kept[0][0]) && !IsSpace(kept[|kept| - 1][|kept[|kept| - 1]| - 1])
  }

  /** Main result: normalising twice is normalising once exactly when the first kept part does not begin,
      and the last one does not end, with white space. */
  lemma NormalPathStaysExactly(path: string)
    requires NormalPath(path).Some?
    ensures NormalPath(NormalPath(path).value) == NormalPath(path) <==> PlainEnds(path)
    ensures PlainEnds(path) <==> Trimmed(NormalPath(path).value)
  {
    var kept, normal := KeptParts(path), NormalPath(path).value;
    NormalPathParts(path);
    JoinedChars(kept);
    TrimTrims(normal);
    if PlainEnds(path) {
      JoinedIsNormal(kept);
    } else {
      TrimIsShorter(normal);
      if NormalPath(normal).Some? { NormalPathIsShorter(normal); }
    }
  }

  predicate IsLetter(c: char) { 'a' <= c <= 'z' }

  /** What every asset path begins and ends with. */
  predicate LetterEnds(path: string) { path != "" && IsLetter(path[0]) && IsLetter(path[|path| - 1]) }

  lemma {:induction false} PartsEnds(raw: string)
    requires LetterEnds(raw)
    ensures var parts := Parts(raw);
            && IsKept(parts[0]) && parts[0][0] == raw[0]
            && IsKept(parts[|parts| - 1]) && parts[|parts| - 1][|parts[|parts| - 1]| - 1] == raw[|raw| - 1]
  {
    SplitOnceParts(raw, '/');
    var split := SplitOnce(raw, '/');
    if split.Some? {
      assert raw[0] == (split.value.0 + ['/'] + split.value.1)[0];
      LastPart(split.value.1, raw[|raw| - 1]);
    }
  }

  lemma {:induction false} LastPart(raw: string, last: char)
    requires raw != "" && raw[|raw| - 1] == last && IsLetter(last)
    ensures var part := Parts(raw)[|Parts(raw)| - 1]; IsKept(part) && part[|part| - 1] == last
    decreases |raw|
  {
    SplitOnceParts(raw, '/');
    var split := SplitOnce(raw, '/');
    if split.Some? { LastPart(split.value.1, last); }
  }

  lemma {:induction false} KeptEnds(parts: seq<string>)
    requires parts != [] && IsKept(parts[0]) && IsKept(parts[|parts| - 1])
    ensures Kept(parts) != [] && Kept(parts)[0] == parts[0] && Kept(parts)[|Kept(parts)| - 1] == parts[|parts| - 1]
  {
    if |parts| == 1 {
      assert Kept(parts[..0]) == [];
    } else {
      KeptFirst(parts[..|parts| - 1]);
    }
  }

  lemma {:induction false} KeptFirst(parts: seq<string>)
    requires parts != [] && IsKept(parts[0])
    ensures Kept(parts) != [] && Kept(parts)[0] == parts[0]
  {
    if |parts| == 1 {
      assert Kept(parts[..0]) == [];
    } else {
      KeptFirst(parts[..|parts| - 1]);
    }
  }

  lemma LetterEndsStay(path: string)
    requires LetterEnds(path)
    ensures Trim(path) == path && Trimmed(path) && LetterEnds(ForwardSlashes(path))
  {
    TrimTrims(path);
  }

  lemma JoinedLetters(raw: string)
    requires LetterEnds(raw) && AllParts(Kept(Parts(raw)))
    ensures LetterEnds(JoinParts(Kept(Parts(raw))))
  {
    PartsEnds(raw);
    KeptEnds(Parts(raw));
    JoinedChars(Kept(Parts(raw)));
  }

  /** A path between letters normalises to one between letters, which is normal. */
  lemma LetterPathStays(path: string)
    requires LetterEnds(path) && NormalPath(path).Some?
    ensures LetterEnds(NormalPath(path).value) && NormalPath(NormalPath(path).value) == NormalPath(path)
  {
    LetterEndsStay(path);
    NormalPathParts(path);
    JoinedLetters(ForwardSlashes(path));
    LetterEndsStay(NormalPath(path).value);
    NormalPathStaysExactly(path);
  }

  /** A path with white space there: `./ a` becomes ` a`, and that becomes `a`. */
  lemma NormalPathIsNotStable()
    ensures NormalPath("./ a") == Some(" a") && NormalPath(" a") == Some("a")
  {
    assert "./ a" == "./" + " a" && " a" == " " + "a";
    DotPart(" a");
    SpacedPart("a");
  }

  lemma DotPart(part: string)
    requires IsPart(part) && !IsSpace(part[|part| - 1])
    ensures NormalPath("./" + part) == Some(part)
  {
    var path := "." + ['/'] + part;
    assert "./" + part == path;
    TrimTrims(path);
    assert ForwardSlashes(path) == path;
    SplitOnceAt(".", '/', part);
    SplitOnceParts(part, '/');
    assert Parts(path) == ["."] + [part];
    assert (["."] + [part])[..1] == ["."] && ["."][..0] == [];
    assert Kept(["."]) == [];
  }

  lemma SpacedPart(part: string)
    requires IsPart(part) && Trimmed(part)
    ensures NormalPath(" " + part) == Some(part)
  {
    TrimSpaces(part);
    assert ForwardSlashes(part) == part;
    SplitOnceParts(part, '/');
    assert Parts(part) == [part] && [part][..0] == [];
    assert Kept([part]) == [] + [part] == [part];
    assert part[0] in part;
  }

  // ---------------------------------------------------------------- framing

  const NUL: char := '\0'

  /** Every field with a NUL behind it. */
  function Framed(fields: seq<string>): string {
    if fields == [] then "" else fields[0] + [NUL] + Framed(fields[1..])
  }

  ghost predicate NulFree(fields: seq<string>) { forall i :: 0 <= i < |fields| ==> NUL !in fields[i] }

  /** Main result: the framing of NUL-free fields is injective. */
  lemma {:induction false} FramingIsInjective(a: seq<string>, b: seq<string>)
    requires NulFree(a) && NulFree(b) && Framed(a) == Framed(b)
    ensures a == b
  {
    if a != [] && b != [] {
      SplitOnceAt(a[0], NUL, Framed(a[1..]));
      SplitOnceAt(b[0], NUL, Framed(b[1..]));
      FramingIsInjective(a[1..], b[1..]);
      assert a == [a[0]] + a[1..] && b == [b[0]] + b[1..];
    }
  }

  // ---------------------------------------------------------------- sorted listings

  /** What orders a listing: family, logical id and path. */
  datatype Ref = Ref(family: string, logicalId: string, path: string)

  predicate Before(a: Ref, b: Ref) {
    || Below(a.family, b.family)
    || (a.family == b.family && Below(a.logicalId, b.logicalId))
    || (a.family == b.family && a.logicalId == b.logicalId && Below(a.path, b.path))
  }

  lemma BeforeIsStrict(a: Ref, b: Ref, c: Ref)
    ensures !Before(a, a)
    ensures Before(a, b) && Before(b, c) ==> Before(a, c)
    ensures a == b || Before(a, b) || Before(b, a)
  {
    BelowIsStrict(a.family);
    BelowIsStrict(a.logicalId);
    BelowIsStrict(a.path);
    if a.family != b.family { BelowIsTotal(a.family, b.family); }
    if a.logicalId != b.logicalId { BelowIsTotal(a.logicalId, b.logicalId); }
    if a.path != b.path { BelowIsTotal(a.path, b.path); }
    if Below(a.family, b.family) && Below(b.family, c.family) { BelowIsTransitive(a.family, b.family, c.family); }
    if Below(a.logicalId, b.logicalId) && Below(b.logicalId, c.logicalId) {
      BelowIsTransitive(a.logicalId, b.logicalId, c.logicalId);
    }
    if Below(a.path, b.path) && Below(b.path, c.path) { BelowIsTransitive(a.path, b.path, c.path); }
  }

  function Insert(r: Ref, sorted: seq<Ref>): seq<Ref> {
    if sorted == [] || Before(r, sorted[0]) then [r] + sorted else [sorted[0]] + Insert(r, sorted[1..])
  }

  function Sorted(refs: seq<Ref>): seq<Ref> {
    if refs == [] then [] else Insert(refs[0], Sorted(refs[1..]))
  }

  lemma InsertsCommute(a: Ref, b: Ref, sorted: seq<Ref>)
    ensures Insert(a, Insert(b, sorted)) == Insert(b, Insert(a, sorted))
  {
    BeforeIsStrict(a, b, a);
    BeforeIsStrict(b, a, b);
    if sorted != [] {
      BeforeIsStrict(a, b, sorted[0]);
      BeforeIsStrict(b, a, sorted[0]);
      InsertsCommute(a, b, sorted[1..]);
    }
  }

  lemma {:induction false} SortedFrom(refs: seq<Ref>, i: nat)
    requires i < |refs|
    ensures Sorted(refs) == Insert(refs[i], Sorted(refs[..i] + refs[i + 1..]))
  {
    if i == 0 {
      assert refs[..0] + refs[1..] == refs[1..];
    } else {
      var rest, without := refs[1..], refs[..i] + refs[i + 1..];
      SortedFrom(rest, i - 1);
      assert without[1..] == rest[..i - 1] + rest[i..];
      InsertsCommute(refs[0], refs[i], Sorted(without[1..]));
    }
  }

  lemma WithoutOne<T>(a: seq<T>, i: nat)
    requires i < |a|
    ensures multiset(a[..i] + a[i + 1..]) == multiset(a) - multiset{a[i]}
  {
    assert a == a[..i] + ([a[i]] + a[i + 1..]);
  }

  /** Where the first element of a rearrangement sits, and that the rest is a rearrangement too. */
  lemma FirstElsewhere<T>(a: seq<T>, b: seq<T>) returns (i: nat)
    requires multiset(a) == multiset(b) && b != []
    ensures i < |a| && a[i] == b[0] && multiset(a[..i] + a[i + 1..]) == multiset(b[1..])
  {
    assert b[0] in multiset(a);
    i :| 0 <= i < |a| && a[i] == b[0];
    WithoutOne(a, i);
    WithoutOne(b, 0);
    assert b[..0] + b[1..] == b[1..];
  }

  /** Main result: the order of a listing does not matter to its sorted form. */
  lemma {:induction false} SortingForgetsOrder(a: seq<Ref>, b: seq<Ref>)
    requires multiset(a) == multiset(b)
    ensures Sorted(a) == Sorted(b)
    decreases |b|
  {
    if b == [] {
      assert |multiset(a)| == 0;
    } else {
      var i := FirstElsewhere(a, b);
      SortedFrom(a, i);
      SortingForgetsOrder(a[..i] + a[i + 1..], b[1..]);
    }
  }
}
