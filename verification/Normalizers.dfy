/** The in-place normalisers that every compiler contract is made of (src/compiler/contracts.rs). */
module Normalizers {
  import opened Sequences
  import opened Wrappers
  import opened Text

  /** The three ways a contract fails. */
  datatype ContractError = InvalidField | InvalidLiteral | InvalidDocument

  type Normalized<T> = Result<T, ContractError>

  /** Normalising again changes nothing. */
  ghost predicate Stable<T(!new)>(normalize: T -> Normalized<T>) {
    forall x :: normalize(x).Ok? ==> normalize(normalize(x).value) == normalize(x)
  }

  function Check(condition: bool, error: ContractError): Result<(), ContractError> {
    if condition then Ok(()) else Err(error)
  }

  // ---------------------------------------------------------------- tokens

  predicate IsLowerAlnum(c: char) { 'a' <= c <= 'z' || '0' <= c <= '9' }

  /** Lower-case alphanumeric words joined by single separators. */
  predicate IsToken(value: string, separators: string) {
    && value != ""
    && (forall i :: 0 <= i < |value| ==> IsLowerAlnum(value[i]) || value[i] in separators)
    && IsLowerAlnum(value[0]) && IsLowerAlnum(value[|value| - 1])
    && forall i :: 0 < i < |value| ==> IsLowerAlnum(value[i - 1]) || IsLowerAlnum(value[i])
  }

  const ID_SEPARATORS := "._-"

  const NAME_SEPARATORS := "_"

  /** The scan with its two flags decides the same. */
  method ScanToken(value: string, separators: string) returns (r: bool)
    requires forall c :: c in separators ==> !IsLowerAlnum(c)
    ensures r == IsToken(value, separators)
  {
    var previousWasSeparator, sawChar := false, false;
    for i := 0 to |value|
      invariant sawChar == (i > 0)
      invariant previousWasSeparator == (i > 0 && !IsLowerAlnum(value[i - 1]))
      invariant i > 0 ==> IsLowerAlnum(value[0])
      invariant forall j :: 0 <= j < i ==> IsLowerAlnum(value[j]) || value[j] in separators
      invariant forall j :: 0 < j < i ==> IsLowerAlnum(value[j - 1]) || IsLowerAlnum(value[j])
    {
      var isAlnum, isSeparator := IsLowerAlnum(value[i]), value[i] in separators;
      if !isAlnum && !isSeparator { return false; }
      if i == 0 && isSeparator { return false; }
      if isSeparator && previousWasSeparator { return false; }
      previousWasSeparator, sawChar := isSeparator, true;
    }
    return sawChar && !previousWasSeparator;
  }

  function CanonicalId(value: string): Normalized<string> {
    var normalized := Lower(Trim(value));
    if IsToken(normalized, ID_SEPARATORS) then Ok(normalized) else Err(InvalidField)
  }

  function OverrideName(value: string): Normalized<string> {
    var normalized := Lower(Trim(value));
    if IsToken(normalized, NAME_SEPARATORS) then Ok(normalized) else Err(InvalidField)
  }

  predicate IsStatus(value: string) {
    && value != "" && 'A' <= value[0] <= 'Z'
    && forall i :: 0 <= i < |value| ==> 'A' <= value[i] <= 'Z' || '0' <= value[i] <= '9' || value[i] == '_'
  }

  function Status(value: string): Normalized<string> {
    var normalized := Upper(Trim(value));
    if IsStatus(normalized) then Ok(normalized) else Err(InvalidField)
  }

  lemma TokenIsNormal(value: string, separators: string)
    requires IsToken(value, separators) && forall c :: c in separators ==> c in ID_SEPARATORS
    ensures Lower(Trim(value)) == value
  {
    TrimTrims(value);
    assert forall i :: 0 <= i < |value| ==> LowerChar(value[i]) == value[i];
  }

  lemma CanonicalIdStable()
    ensures Stable(CanonicalId)
  {
    forall x | CanonicalId(x).Ok? ensures CanonicalId(CanonicalId(x).value) == CanonicalId(x) {
      TokenIsNormal(CanonicalId(x).value, ID_SEPARATORS);
    }
  }

  lemma OverrideNameStable()
    ensures Stable(OverrideName)
  {
    forall x | OverrideName(x).Ok? ensures OverrideName(OverrideName(x).value) == OverrideName(x) {
      TokenIsNormal(OverrideName(x).value, NAME_SEPARATORS);
    }
  }

  lemma StatusStable()
    ensures Stable(Status)
  {
    forall x | Status(x).Ok? ensures Status(Status(x).value) == Status(x) {
      var value := Status(x).value;
      TrimTrims(value);
      assert forall i :: 0 <= i < |value| ==> UpperChar(value[i]) == value[i];
      assert Upper(value) == value;
    }
  }

  // ---------------------------------------------------------------- text

  function WordEnd(s: string): (n: nat)
    ensures n <= |s|
  {
    if s == "" || IsSpace(s[0]) then 0 else 1 + WordEnd(s[1..])
  }

  /** `split_whitespace`. */
  function Words(s: string): seq<string>
    decreases |s|
  {
    if s == "" then []
    else if IsSpace(s[0]) then Words(s[1..])
    else [s[..WordEnd(s)]] + Words(s[WordEnd(s)..])
  }

  function JoinWords(words: seq<string>): string {
    if |words| == 0 then "" else if |words| == 1 then words[0] else words[0] + (" " + JoinWords(words[1..]))
  }

  function NonEmptyText(value: string): Normalized<string> {
    var normalized := JoinWords(Words(value));
    if normalized == "" then Err(InvalidField) else Ok(normalized)
  }

  predicate IsWord(word: string) { word != "" && forall i :: 0 <= i < |word| ==> !IsSpace(word[i]) }

  lemma {:induction false} WordEndSplits(s: string)
    ensures forall i :: 0 <= i < WordEnd(s) ==> !IsSpace(s[i])
  {
    if s != "" && !IsSpace(s[0]) { WordEndSplits(s[1..]); }
  }

  lemma {:induction false} WordsAreWords(s: string)
    ensures forall i :: 0 <= i < |Words(s)| ==> IsWord(Words(s)[i])
    decreases |s|
  {
    if s != "" {
      if IsSpace(s[0]) {
        WordsAreWords(s[1..]);
      } else {
        WordEndSplits(s);
        WordsAreWords(s[WordEnd(s)..]);
      }
    }
  }

  lemma {:induction false} WordEndAt(word: string, rest: string)
    requires (forall i :: 0 <= i < |word| ==> !IsSpace(word[i])) && (rest == "" || IsSpace(rest[0]))
    ensures WordEnd(word + rest) == |word|
  {
    if word == "" {
      assert word + rest == rest;
    } else {
      assert (word + rest)[1..] == word[1..] + rest;
      WordEndAt(word[1..], rest);
    }
  }

  lemma {:induction false} WordsOfJoined(words: seq<string>)
    requires forall i :: 0 <= i < |words| ==> IsWord(words[i])
    ensures Words(JoinWords(words)) == words
  {
    if |words| == 1 {
      assert words[0] + "" == words[0];
      WordEndAt(words[0], "");
    } else if |words| > 1 {
      var word, rest := words[0], " " + JoinWords(words[1..]);
      WordEndAt(word, rest);
      assert (word + rest)[..|word|] == word && (word + rest)[|word|..] == rest;
      WordsOfJoined(words[1..]);
      assert rest[1..] == JoinWords(words[1..]);
    }
  }

  lemma NonEmptyTextStable()
    ensures Stable(NonEmptyText)
  {
    forall x | NonEmptyText(x).Ok? ensures NonEmptyText(NonEmptyText(x).value) == NonEmptyText(x) {
      WordsAreWords(x);
      WordsOfJoined(Words(x));
    }
  }

  // ---------------------------------------------------------------- markdown asset paths

  function ForwardSlashes(path: string): (r: string)
    ensures |r| == |path|
  {
    seq(|path|, i requires 0 <= i < |path| => if path[i] == '\\' then '/' else path[i])
  }

  /** No part between slashes is empty or `..`. */
  predicate PlainParts(path: string)
    decreases |path|
  {
    match SplitOnce(path, '/')
    case None => path != "" && path != ".."
    case Some((part, rest)) =>
      SplitOnceParts(path, '/');
      part != "" && part != ".." && PlainParts(rest)
  }

  predicate IsMarkdownPath(path: string, prefix: string) {
    prefix <= path && |path| >= 3 && path[|path| - 3..] == ".md" && path[0] != '/' && PlainParts(path)
  }

  function MarkdownPath(prefix: string): string -> Normalized<string> {
    (value: string) => CheckedPath(prefix, value)
  }

  function CheckedPath(prefix: string, value: string): Normalized<string> {
    var normalized := ForwardSlashes(Trim(value));
    if IsMarkdownPath(normalized, prefix) then Ok(normalized) else Err(InvalidField)
  }

  const ENTRYPOINTS := "entrypoints/"

  const SKILLS := "skills/"

  lemma MarkdownPathStable(prefix: string)
    requires prefix != "" && !IsSpace(prefix[0])
    ensures Stable(MarkdownPath(prefix))
  {
    forall x | CheckedPath(prefix, x).Ok?
      ensures CheckedPath(prefix, CheckedPath(prefix, x).value) == CheckedPath(prefix, x)
    {
      var path := CheckedPath(prefix, x).value;
      TrimTrims(path);
      assert path[0] == prefix[0] && path[|path| - 1] == ".md"[2];
      assert ForwardSlashes(path) == path;
    }
  }

  // ---------------------------------------------------------------- lists and options

  function Optionally<T>(normalize: T -> Normalized<T>, value: Option<T>): Normalized<Option<T>> {
    match value
    case None => Ok(None)
    case Some(x) =>
      var normalized :- normalize(x);
      Ok(Some(normalized))
  }

  /** The values that do not occur earlier. */
  function Dedupe<T(==)>(values: seq<T>): seq<T> {
    if values == [] then []
    else
      var earlier, last := Dedupe(values[..|values| - 1]), values[|values| - 1];
      if last in earlier then earlier else earlier + [last]
  }

  function EachOnce<T(==)>(normalize: T -> Normalized<T>, values: seq<T>): Normalized<seq<T>> {
    var normalized :- Each(normalize, values);
    Ok(Dedupe(normalized))
  }

  lemma {:induction false} DedupeKeeps<T>(values: seq<T>)
    ensures Distinct(Dedupe(values)) && forall x :: x in Dedupe(values) <==> x in values
  {
    if values != [] {
      DedupeKeeps(values[..|values| - 1]);
      assert values == values[..|values| - 1] + [values[|values| - 1]];
    }
  }

  lemma {:induction false} DistinctStays<T>(values: seq<T>)
    requires Distinct(values)
    ensures Dedupe(values) == values
  {
    if values != [] {
      DistinctStays(values[..|values| - 1]);
      assert values == values[..|values| - 1] + [values[|values| - 1]];
    }
  }

  /** All values are already normal. */
  ghost predicate AllNormal<T>(normalize: T -> Normalized<T>, values: seq<T>) {
    forall x :: x in values ==> normalize(x) == Ok(x)
  }

  lemma {:induction false} EachIsNormal<T(!new)>(normalize: T -> Normalized<T>, values: seq<T>)
    requires Stable(normalize) && Each(normalize, values).Ok?
    ensures AllNormal(normalize, Each(normalize, values).value)
    ensures |Each(normalize, values).value| == |values|
  {
    if values != [] { EachIsNormal(normalize, values[..|values| - 1]); }
  }

  lemma {:induction false} NormalStays<T>(normalize: T -> Normalized<T>, values: seq<T>)
    requires AllNormal(normalize, values)
    ensures Each(normalize, values) == Ok(values)
  {
    if values != [] {
      assert values[|values| - 1] in values;
      NormalStays(normalize, values[..|values| - 1]);
      assert values == values[..|values| - 1] + [values[|values| - 1]];
    }
  }

  lemma EachStable<T(!new)>(normalize: T -> Normalized<T>, values: seq<T>)
    requires Stable(normalize) && Each(normalize, values).Ok?
    ensures Each(normalize, Each(normalize, values).value) == Each(normalize, values)
  {
    EachIsNormal(normalize, values);
    NormalStays(normalize, Each(normalize, values).value);
  }

  lemma EachOnceStable<T(!new)>(normalize: T -> Normalized<T>, values: seq<T>)
    requires Stable(normalize) && EachOnce(normalize, values).Ok?
    ensures EachOnce(normalize, EachOnce(normalize, values).value) == EachOnce(normalize, values)
  {
    var normal := Each(normalize, values).value;
    EachIsNormal(normalize, values);
    DedupeKeeps(normal);
    NormalStays(normalize, Dedupe(normal));
    DistinctStays(Dedupe(normal));
  }

  lemma OptionallyStable<T(!new)>(normalize: T -> Normalized<T>, value: Option<T>)
    requires Stable(normalize) && Optionally(normalize, value).Ok?
    ensures Optionally(normalize, Optionally(normalize, value).value) == Optionally(normalize, value)
  {}

  /** Overwrites the values one after another. */
  method NormalizeEach<T>(normalize: T -> Normalized<T>, values: seq<T>) returns (r: Normalized<seq<T>>)
    ensures r == Each(normalize, values)
  {
    var current := values;
    for i := 0 to |values|
      invariant |current| == |values| && current[i..] == values[i..]
      invariant Each(normalize, values[..i]) == Ok(current[..i])
    {
      assert current[i] == current[i..][0] == values[i];
      assert values[..i + 1][..i] == values[..i];
      var normalized := normalize(current[i]);
      if normalized.Err? {
        FirstFailureStays(normalize, values, i + 1);
        return Err(normalized.error);
      }
      ghost var before := current;
      current := current[i := normalized.value];
      assert current[..i + 1] == before[..i] + [normalized.value];
    }
    assert values[..|values|] == values && current[..|values|] == current;
    return Ok(current);
  }

  /** `retain` with the set of values seen. */
  method DedupeValues<T(==)>(values: seq<T>) returns (kept: seq<T>)
    ensures kept == Dedupe(values)
  {
    kept := [];
    var seen: set<T> := {};
    for i := 0 to |values|
      invariant kept == Dedupe(values[..i])
      invariant forall x :: x in seen <==> x in kept
    {
      assert values[..i + 1][..i] == values[..i];
      if values[i] !in seen {
        seen := seen + {values[i]};
        kept := kept + [values[i]];
      }
    }
    assert values[..|values|] == values;
  }

  // ---------------------------------------------------------------- maps under normalised keys

  /** Two keys normalise to the same. */
  ghost predicate Collides<K(!new), V>(key: K -> Normalized<K>, m: map<K, V>) {
    exists a, b :: a in m && b in m && a != b && key(a) == key(b)
  }

  /** The map under its normalised keys, each value normalised. */
  ghost function Rekeyed<K(!new), V>(key: K -> Normalized<K>, value: V -> V, m: map<K, V>): Normalized<map<K, V>> {
    if m == map[] then Err(InvalidField)
    else if exists k :: k in m && key(k).Err? then Err(InvalidField)
    else if Collides(key, m) then Err(InvalidDocument)
    else Ok(map k | k in m :: key(k).value := value(m[k]))
  }

  /** `r` has the entries of `m` under their normalised keys, and no others. */
  ghost predicate Rekeys<K(!new), V>(key: K -> Normalized<K>, value: V -> V, m: map<K, V>, r: map<K, V>) {
    && (forall k :: k in m ==> key(k).Ok? && key(k).value in r && r[key(k).value] == value(m[k]))
    && (forall n :: n in r ==> exists k :: k in m && key(k) == Ok(n))
    && !Collides(key, m)
  }

  lemma RekeysIsRekeyed<K(!new), V>(key: K -> Normalized<K>, value: V -> V, m: map<K, V>, r: map<K, V>)
    requires m != map[] && Rekeys(key, value, m, r)
    ensures Rekeyed(key, value, m) == Ok(r)
  {
    var expected := Rekeyed(key, value, m).value;
    forall n | n in r ensures n in expected && expected[n] == r[n] {
      var k :| k in m && key(k) == Ok(n);
    }
    forall n | n in expected ensures n in r {
      var k :| k in m && key(k).value == n;
    }
    assert Rekeyed(key, value, m).Ok?;
    assert expected.Keys == r.Keys;
    assert expected == r;
  }

  lemma RekeyedRekeys<K(!new), V>(key: K -> Normalized<K>, value: V -> V, m: map<K, V>)
    requires Rekeyed(key, value, m).Ok?
    ensures m != map[] && Rekeys(key, value, m, Rekeyed(key, value, m).value)
  {
    var r := Rekeyed(key, value, m).value;
    forall n | n in r ensures exists k :: k in m && key(k) == Ok(n) {
      var k :| k in m && key(k).value == n;
    }
  }

  lemma RekeyedStable<K(!new), V(!new)>(key: K -> Normalized<K>, value: V -> V, m: map<K, V>)
    requires Stable(key) && (forall v :: value(value(v)) == value(v)) && Rekeyed(key, value, m).Ok?
    ensures Rekeyed(key, value, Rekeyed(key, value, m).value) == Rekeyed(key, value, m)
  {
    RekeyedRekeys(key, value, m);
    var r := Rekeyed(key, value, m).value;
    var some :| some in m;
    assert key(some).value in r;
    forall n | n in r ensures key(n) == Ok(n) && value(r[n]) == r[n] {
      var k :| k in m && key(k) == Ok(n);
    }
    RekeysIsRekeyed(key, value, r, r);
  }

  /** One key does not normalise, and two others normalise to the same. */
  ghost predicate FailsBothWays<K(!new), V>(key: K -> Normalized<K>, m: map<K, V>) {
    && (exists k :: k in m && key(k).Err?)
    && exists a, b :: a in m && b in m && a != b && key(a).Ok? && key(a) == key(b)
  }

  /** The entries in the order a hash map happens to give them; a collision shows as an entry that
      is already there. Only when there is a key that does not normalise beside a collision does the
      order decide which of the two is reported. */
  method NormalizeMap<K(==, !new), V>(key: K -> Normalized<K>, value: V -> V, m: map<K, V>)
    returns (r: Normalized<map<K, V>>)
    ensures r.Ok? ==> Rekeyed(key, value, m) == r
    ensures r.Err? ==> Rekeyed(key, value, m).Err?
    ensures r.Err? ==> Rekeyed(key, value, m) == Err(r.error) || FailsBothWays(key, m)
  {
    if m == map[] { return Err(InvalidField); }
    var normalized: map<K, V> := map[];
    var rest, done := m.Keys, map[];
    while rest != {}
      invariant rest <= m.Keys && done == map k | k in m && k !in rest :: m[k]
      invariant Rekeys(key, value, done, normalized)
      decreases rest
    {
      var k :| k in rest;
      var n := key(k);
      if n.Err? { return Err(InvalidField); }
      if n.value in normalized {
        ghost var other :| other in done && key(other) == n;
        assert other in m && other != k && key(other) == key(k);
        return Err(InvalidDocument);
      }
      RekeysGrows(key, value, done, normalized, k, m[k]);
      normalized := normalized[n.value := value(m[k])];
      rest, done := rest - {k}, done[k := m[k]];
    }
    assert done == m;
    RekeysIsRekeyed(key, value, m, normalized);
    return Ok(normalized);
  }

  lemma RekeysGrows<K(!new), V>(key: K -> Normalized<K>, value: V -> V, m: map<K, V>, r: map<K, V>, k: K, v: V)
    requires Rekeys(key, value, m, r) && k !in m && key(k).Ok? && key(k).value !in r
    ensures Rekeys(key, value, m[k := v], r[key(k).value := value(v)])
  {
    var grown := m[k := v];
    forall n | n in r || n == key(k).value ensures exists j :: j in grown && key(j) == Ok(n) {
      if n in r {
        var j :| j in m && key(j) == Ok(n);
        assert j in grown;
      } else {
        assert k in grown;
      }
    }
  }

  // ---------------------------------------------------------------- result classes by outcome

  datatype ResultClass = Success | NoOp | FollowupNeeded | RecoverableFailure | EscalatePlanning | Blocked

  type Classes = map<string, seq<ResultClass>>

  ghost function NormalClasses(status: string -> Normalized<string>, mapping: Classes): Normalized<Classes> {
    Rekeyed(status, Dedupe<ResultClass>, mapping)
  }

  lemma NormalClassesStable(status: string -> Normalized<string>, mapping: Classes)
    requires Stable(status) && NormalClasses(status, mapping).Ok?
    ensures NormalClasses(status, NormalClasses(status, mapping).value) == NormalClasses(status, mapping)
  {
    forall classes: seq<ResultClass> ensures Dedupe(Dedupe(classes)) == Dedupe(classes) {
      DedupeKeeps(classes);
      DistinctStays(Dedupe(classes));
    }
    RekeyedStable(status, Dedupe<ResultClass>, mapping);
  }
}
