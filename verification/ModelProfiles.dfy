/**
 * lib/docintel-common/docintel_common/model_profile_resolver.py: tiered pattern match, field-wise merge
 * and a two-level TTL cache. Letter case is folded for ASCII; fetches take no time.
 */
module ModelProfiles {
  import opened Wrappers

  datatype Field =
    | Temperature | TopP | MaxTokens | FrequencyPenalty | PresencePenalty | RepetitionPenalty | TopK | MinP
    | ThinkingTemperature | ThinkingTopP | ThinkingMaxTokens | ThinkingFrequencyPenalty | ThinkingPresencePenalty
    | ThinkingRepetitionPenalty | ThinkingTopK | ThinkingMinP | ThinkingBudget | StreamThinking | Kind

  const FIELDS: seq<Field> := [
    Temperature, TopP, MaxTokens, FrequencyPenalty, PresencePenalty, RepetitionPenalty, TopK, MinP,
    ThinkingTemperature, ThinkingTopP, ThinkingMaxTokens, ThinkingFrequencyPenalty, ThinkingPresencePenalty,
    ThinkingRepetitionPenalty, ThinkingTopK, ThinkingMinP, ThinkingBudget, StreamThinking, Kind]

  datatype Value = Number(n: real) | Flag(b: bool) | Word(w: string)

  /** `ModelSamplingParams`: a field that is not set is not a key. */
  type Params = map<Field, Value>

  datatype Row = Row(pattern: string, kind: Option<string>, params: Params)

  function RowToParams(row: Row): Params {
    if row.kind.Some? then row.params[Kind := Word(row.kind.value)] else row.params - {Kind}
  }

  // ---------------------------------------------------------------- field-wise merge

  /** The profiles in order of precedence: what is missing from the first comes from the rest. */
  function Merged(profiles: seq<Option<Params>>): Params {
    if profiles == [] then map[]
    else
      var rest := Merged(profiles[1..]);
      if profiles[0].None? then rest else rest + profiles[0].value
  }

  /** Taking over the fields of `p` that `result` lacks. */
  function Fill(result: Params, p: Option<Params>): Params {
    if p.None? then result else p.value + result
  }

  lemma AllFields(f: Field)
    ensures f in FIELDS
  {
    match f
    case Temperature => assert FIELDS[0] == f;
    case TopP => assert FIELDS[1] == f;
    case MaxTokens => assert FIELDS[2] == f;
    case FrequencyPenalty => assert FIELDS[3] == f;
    case PresencePenalty => assert FIELDS[4] == f;
    case RepetitionPenalty => assert FIELDS[5] == f;
    case TopK => assert FIELDS[6] == f;
    case MinP => assert FIELDS[7] == f;
    case ThinkingTemperature => assert FIELDS[8] == f;
    case ThinkingTopP => assert FIELDS[9] == f;
    case ThinkingMaxTokens => assert FIELDS[10] == f;
    case ThinkingFrequencyPenalty => assert FIELDS[11] == f;
    case ThinkingPresencePenalty => assert FIELDS[12] == f;
    case ThinkingRepetitionPenalty => assert FIELDS[13] == f;
    case ThinkingTopK => assert FIELDS[14] == f;
    case ThinkingMinP => assert FIELDS[15] == f;
    case ThinkingBudget => assert FIELDS[16] == f;
    case StreamThinking => assert FIELDS[17] == f;
    case Kind => assert FIELDS[18] == f;
  }

  lemma {:induction false} MergedSnoc(profiles: seq<Option<Params>>, p: Option<Params>)
    ensures Merged(profiles + [p]) == Fill(Merged(profiles), p)
  {
    if profiles == [] {
      assert ([] + [p])[1..] == [];
    } else {
      assert (profiles + [p])[1..] == profiles[1..] + [p];
      MergedSnoc(profiles[1..], p);
    }
  }

  /** `_merge`: field by field, the first profile that sets a field wins. */
  method Merge(profiles: seq<Option<Params>>) returns (result: Params)
    ensures result == Merged(profiles)
  {
    result := map[];
    for i := 0 to |profiles|
      invariant result == Merged(profiles[..i])
    {
      assert profiles[..i + 1] == profiles[..i] + [profiles[i]];
      MergedSnoc(profiles[..i], profiles[i]);
      if profiles[i].Some? {
        result := FillFields(result, profiles[i].value);
      }
    }
    assert profiles[..|profiles|] == profiles;
  }

  method FillFields(start: Params, p: Params) returns (result: Params)
    ensures result == Fill(start, Some(p))
  {
    result := start;
    for k := 0 to |FIELDS|
      invariant forall f: Field :: f in result <==> f in start || (f in p && f in FIELDS[..k])
      invariant forall f: Field | f in result :: result[f] == if f in start then start[f] else p[f]
    {
      var f := FIELDS[k];
      assert forall g: Field :: g in FIELDS[..k + 1] <==> g in FIELDS[..k] || g == f;
      if f !in result && f in p {
        result := result[f := p[f]];
      }
    }
    forall f: Field ensures f in FIELDS[..|FIELDS|] {
      AllFields(f);
    }
  }

  /** The first profile, in order, that sets the field. */
  function FirstSet(profiles: seq<Option<Params>>, f: Field): Option<Value> {
    if profiles == [] then None
    else if profiles[0].Some? && f in profiles[0].value then Some(profiles[0].value[f])
    else FirstSet(profiles[1..], f)
  }

  lemma {:induction false} MergedIsFirstSet(profiles: seq<Option<Params>>, f: Field)
    ensures FirstSet(profiles, f) == if f in Merged(profiles) then Some(Merged(profiles)[f]) else None
  {
    if profiles != [] {
      MergedIsFirstSet(profiles[1..], f);
    }
  }

  /** Merging is associative: a merged block of profiles may stand for the block. */
  lemma {:induction false} MergeAssociative(a: seq<Option<Params>>, b: seq<Option<Params>>)
    ensures Merged(a + b) == Merged([Some(Merged(a)), Some(Merged(b))])
  {
    var pair := [Some(Merged(a)), Some(Merged(b))];
    assert pair[1..] == [Some(Merged(b))] && [Some(Merged(b))][1..] == [];
    if a == [] {
      assert a + b == b;
    } else {
      assert (a + b)[1..] == a[1..] + b;
      MergeAssociative(a[1..], b);
      var rest := [Some(Merged(a[1..])), Some(Merged(b))];
      assert rest[1..] == [Some(Merged(b))];
    }
  }

  lemma {:induction false} MergeIdentity(p: Params)
    ensures Merged([Some(p)]) == p && Merged([Some(map[]), Some(p)]) == p && Merged([Some(p), Some(map[])]) == p
    ensures Merged([None, Some(p)]) == p
  {
    assert [Some(p)][1..] == [];
    assert Merged([Some(p)]) == p;
    assert [Some(map[]), Some(p)][1..] == [Some(p)] && [None, Some(p)][1..] == [Some(p)];
    var empty: Params := map[];
    assert [Some(p), Some(empty)][1..] == [Some(empty)] && [Some(empty)][1..] == [];
  }

  // ---------------------------------------------------------------- best match

  function LowerChar(c: char): char {
    if 'A' <= c <= 'Z' then c - 'A' + 'a' else c
  }

  function Lower(s: string): (l: string)
    ensures |l| == |s|
  {
    seq(|s|, i requires 0 <= i < |s| => LowerChar(s[i]))
  }

  predicate IsWildcard(pattern: string) {
    pattern != "" && pattern[|pattern| - 1] == '*'
  }

  predicate MatchPattern(model: string, pattern: string) {
    if IsWildcard(pattern) then Lower(pattern[..|pattern| - 1]) <= Lower(model)
    else Lower(model) == Lower(pattern)
  }

  // ---------------------------------------------------------------- what a pattern matches

  /** The same character but for the case of an ASCII letter. */
  predicate SameLetter(a: char, b: char) {
    || a == b
    || ('A' <= a <= 'Z' && b as int == a as int + 32)
    || ('A' <= b <= 'Z' && a as int == b as int + 32)
  }

  predicate SameLetters(a: string, b: string) {
    |a| == |b| && forall i | 0 <= i < |a| :: SameLetter(a[i], b[i])
  }

  lemma {:induction false} LowerIsSameLetter(a: char, b: char)
    ensures LowerChar(a) == LowerChar(b) <==> SameLetter(a, b)
  {
    assert 'a' as int == 97 && 'A' as int == 65;
  }

  lemma {:induction false} LowerIsSameLetters(a: string, b: string)
    ensures Lower(a) == Lower(b) <==> SameLetters(a, b)
  {
    if Lower(a) == Lower(b) {
      forall i | 0 <= i < |a| ensures SameLetter(a[i], b[i]) {
        assert Lower(a)[i] == Lower(b)[i];
        LowerIsSameLetter(a[i], b[i]);
      }
    }
    if SameLetters(a, b) {
      forall i | 0 <= i < |a| ensures Lower(a)[i] == Lower(b)[i] {
        LowerIsSameLetter(a[i], b[i]);
      }
    }
  }

  lemma {:induction false} LowerPrefix(s: string, n: nat)
    requires n <= |s|
    ensures Lower(s)[..n] == Lower(s[..n])
  {
  }

  /** A pattern with a star at its end matches exactly the models that begin with what stands before the star, up to case. */
  lemma {:induction false} WildcardMatchesIff(model: string, stem: string)
    ensures MatchPattern(model, stem + "*") <==> |stem| <= |model| && SameLetters(model[..|stem|], stem)
  {
    var pattern := stem + "*";
    assert pattern[..|pattern| - 1] == stem;
    if |stem| <= |model| {
      LowerPrefix(model, |stem|);
      LowerIsSameLetters(model[..|stem|], stem);
    }
  }

  /** So it matches whatever goes on from there. */
  lemma {:induction false} WildcardMatchesExtensions(stem: string, rest: string)
    ensures MatchPattern(stem + rest, stem + "*")
  {
    WildcardMatchesIff(stem + rest, stem);
    assert (stem + rest)[..|stem|] == stem;
  }

  /** A pattern without a star at its end matches exactly the models equal to it up to case. */
  lemma {:induction false} ExactMatchesIff(model: string, pattern: string)
    requires pattern == "" || pattern[|pattern| - 1] != '*'
    ensures MatchPattern(model, pattern) <==> SameLetters(model, pattern)
  {
    LowerIsSameLetters(model, pattern);
  }

  /** Case makes no difference, in model or pattern. */
  lemma {:induction false} CaseIsIrrelevant(model: string, pattern: string, model': string, pattern': string)
    requires SameLetters(model, model') && SameLetters(pattern, pattern')
    ensures MatchPattern(model, pattern) <==> MatchPattern(model', pattern')
  {
    LowerIsSameLetters(model, model');
    LowerIsSameLetters(pattern, pattern');
    if IsWildcard(pattern) {
      var n := |pattern| - 1;
      assert SameLetter(pattern[n], pattern'[n]);
      LowerPrefix(pattern, n);
      LowerPrefix(pattern', n);
    } else if pattern != "" {
      assert SameLetter(pattern[|pattern| - 1], pattern'[|pattern| - 1]);
    }
  }

  datatype Tier = Exact | SameKind | Universal | Excluded

  /** How a row stands to a model: wildcards of another kind are excluded when a kind is asked for. */
  function TierOf(model: string, row: Row, target: Option<string>): Tier {
    if !MatchPattern(model, row.pattern) then Excluded
    else if !IsWildcard(row.pattern) then Exact
    else if target.Some? && row.kind.Some? && row.kind != target then Excluded
    else if target.Some? && row.kind == target then SameKind
    else Universal
  }

  /** Among the first `n` rows, row `k` has the tier's longest pattern and is the earliest of that length. */
  predicate IsBest(model: string, rows: seq<Row>, target: Option<string>, tier: Tier, n: nat, k: nat)
    requires n <= |rows|
  {
    && k < n && TierOf(model, rows[k], target) == tier
    && forall j | 0 <= j < n && TierOf(model, rows[j], target) == tier ::
         |rows[j].pattern| <= |rows[k].pattern| && (j < k ==> |rows[j].pattern| < |rows[k].pattern|)
  }

  predicate TierEmpty(model: string, rows: seq<Row>, target: Option<string>, tier: Tier, n: nat)
    requires n <= |rows|
  {
    forall j | 0 <= j < n :: TierOf(model, rows[j], target) != tier
  }

  /** The best of the first `n` rows in a tier, as an index. */
  function BestOf(model: string, rows: seq<Row>, target: Option<string>, tier: Tier, n: nat): (k: Option<nat>)
    requires n <= |rows|
    ensures k.Some? ==> k.value < n
  {
    if n == 0 then None
    else
      var before := BestOf(model, rows, target, tier, n - 1);
      if TierOf(model, rows[n - 1], target) == tier
         && (before.None? || |rows[n - 1].pattern| > |rows[before.value].pattern|)
      then Some(n - 1) else before
  }

  function Pick(rows: seq<Row>, k: Option<nat>): Option<Params>
    requires k.Some? ==> k.value < |rows|
  {
    if k.Some? then Some(RowToParams(rows[k.value])) else None
  }

  function ExactRow(model: string, rows: seq<Row>, target: Option<string>): (k: Option<nat>)
    ensures k.Some? ==> k.value < |rows|
  {
    BestOf(model, rows, target, Exact, |rows|)
  }

  function WildcardRow(model: string, rows: seq<Row>, target: Option<string>): (k: Option<nat>)
    ensures k.Some? ==> k.value < |rows|
  {
    var sameKind := BestOf(model, rows, target, SameKind, |rows|);
    if sameKind.Some? then sameKind else BestOf(model, rows, target, Universal, |rows|)
  }

  function BestMatch(model: string, rows: seq<Row>, target: Option<string>): Option<Params> {
    var exact := ExactRow(model, rows, target);
    Pick(rows, if exact.Some? then exact else WildcardRow(model, rows, target))
  }

  /** A row that is longer than the best so far, or the first of its tier, is the new best. */
  lemma {:induction false} LongerIsBest(model: string, rows: seq<Row>, target: Option<string>, tier: Tier, n: nat, best: Option<nat>)
    requires n < |rows| && TierOf(model, rows[n], target) == tier
    requires if best.Some? then IsBest(model, rows, target, tier, n, best.value) && |rows[n].pattern| > |rows[best.value].pattern|
             else TierEmpty(model, rows, target, tier, n)
    ensures IsBest(model, rows, target, tier, n + 1, n)
  {
    forall j | 0 <= j < n && TierOf(model, rows[j], target) == tier ensures |rows[j].pattern| < |rows[n].pattern| {
    }
  }

  lemma {:induction false} StaysBest(model: string, rows: seq<Row>, target: Option<string>, tier: Tier, n: nat, best: Option<nat>)
    requires n < |rows|
    requires if best.Some? then IsBest(model, rows, target, tier, n, best.value) else TierEmpty(model, rows, target, tier, n)
    requires TierOf(model, rows[n], target) == tier ==> best.Some? && |rows[n].pattern| <= |rows[best.value].pattern|
    ensures if best.Some? then IsBest(model, rows, target, tier, n + 1, best.value) else TierEmpty(model, rows, target, tier, n + 1)
  {
    forall j | 0 <= j < n + 1 && TierOf(model, rows[j], target) == tier
      ensures best.Some? && |rows[j].pattern| <= |rows[best.value].pattern|
    {
    }
  }

  lemma {:induction false} BestOfIsBest(model: string, rows: seq<Row>, target: Option<string>, tier: Tier, n: nat)
    requires n <= |rows|
    ensures var k := BestOf(model, rows, target, tier, n);
            if k.Some? then IsBest(model, rows, target, tier, n, k.value) else TierEmpty(model, rows, target, tier, n)
  {
    if n > 0 {
      BestOfIsBest(model, rows, target, tier, n - 1);
      var best := BestOf(model, rows, target, tier, n - 1);
      if TierOf(model, rows[n - 1], target) == tier && (best.None? || |rows[n - 1].pattern| > |rows[best.value].pattern|) {
        LongerIsBest(model, rows, target, tier, n - 1, best);
      } else {
        StaysBest(model, rows, target, tier, n - 1, best);
      }
    }
  }

  /** The match is the first exact row, else a longest wildcard of the model's kind, else a longest wildcard of no kind. */
  lemma {:induction false} BestMatchMeaning(model: string, rows: seq<Row>, target: Option<string>)
    ensures var r := BestMatch(model, rows, target);
            if r.None? then forall j | 0 <= j < |rows| :: TierOf(model, rows[j], target) == Excluded
            else exists k: nat | k < |rows| ::
                   && r.value == RowToParams(rows[k]) && TierOf(model, rows[k], target) != Excluded
                   && IsBest(model, rows, target, TierOf(model, rows[k], target), |rows|, k)
                   && (TierOf(model, rows[k], target) != Exact ==> TierEmpty(model, rows, target, Exact, |rows|))
                   && (TierOf(model, rows[k], target) == Universal ==> TierEmpty(model, rows, target, SameKind, |rows|))
  {
    BestOfIsBest(model, rows, target, Exact, |rows|);
    BestOfIsBest(model, rows, target, SameKind, |rows|);
    BestOfIsBest(model, rows, target, Universal, |rows|);
  }

  /** The row names the model itself. */
  predicate Names(model: string, row: Row) {
    (row.pattern == "" || row.pattern[|row.pattern| - 1] != '*') && SameLetters(model, row.pattern)
  }

  /** The row's pattern ends with a star and the model begins with what stands before it. */
  predicate Covers(model: string, row: Row) {
    var n := |row.pattern| - 1;
    0 <= n <= |model| && row.pattern[n] == '*' && SameLetters(model[..n], row.pattern[..n])
  }

  lemma {:induction false} TierIff(model: string, row: Row, target: Option<string>)
    ensures TierOf(model, row, target) == Exact <==> Names(model, row)
    ensures TierOf(model, row, target) == SameKind <==> Covers(model, row) && target.Some? && row.kind == target
    ensures TierOf(model, row, target) == Universal <==> Covers(model, row) && (target.None? || row.kind.None?)
  {
    if row.pattern != "" && row.pattern[|row.pattern| - 1] == '*' {
      var stem := row.pattern[..|row.pattern| - 1];
      assert row.pattern == stem + "*";
      WildcardMatchesIff(model, stem);
    } else {
      ExactMatchesIff(model, row.pattern);
    }
  }

  /** Row `k` is the longest of its tier, and the first of that length. */
  lemma {:induction false} BestIs(model: string, rows: seq<Row>, target: Option<string>, tier: Tier, k: nat)
    requires IsBest(model, rows, target, tier, |rows|, k)
    ensures BestOf(model, rows, target, tier, |rows|) == Some(k)
  {
    BestOfIsBest(model, rows, target, tier, |rows|);
    var best := BestOf(model, rows, target, tier, |rows|);
    assert best.Some?;
    assert |rows[best.value].pattern| == |rows[k].pattern|;
  }

  lemma {:induction false} NoneIs(model: string, rows: seq<Row>, target: Option<string>, tier: Tier)
    requires TierEmpty(model, rows, target, tier, |rows|)
    ensures BestOf(model, rows, target, tier, |rows|) == None
  {
    BestOfIsBest(model, rows, target, tier, |rows|);
  }

  /** The first row that names the model is the match, whatever its kind and whatever wildcards there are. */
  lemma {:induction false} FirstNamedRowMatches(model: string, rows: seq<Row>, target: Option<string>, k: nat)
    requires k < |rows| && Names(model, rows[k]) && forall j | 0 <= j < k :: !Names(model, rows[j])
    ensures BestMatch(model, rows, target) == Some(RowToParams(rows[k]))
  {
    forall j | 0 <= j < |rows| ensures TierOf(model, rows[j], target) == Exact ==> j >= k && |rows[j].pattern| == |model| {
      TierIff(model, rows[j], target);
    }
    TierIff(model, rows[k], target);
    BestIs(model, rows, target, Exact, k);
  }

  /** Without one it is the longest wildcard of the model's kind, the first of that length. */
  lemma {:induction false} LongestOwnKindMatches(model: string, rows: seq<Row>, kind: string, k: nat)
    requires forall j | 0 <= j < |rows| :: !Names(model, rows[j])
    requires k < |rows| && Covers(model, rows[k]) && rows[k].kind == Some(kind)
    requires forall j | 0 <= j < |rows| && Covers(model, rows[j]) && rows[j].kind == Some(kind) ::
               |rows[j].pattern| <= |rows[k].pattern| && (j < k ==> |rows[j].pattern| < |rows[k].pattern|)
    ensures BestMatch(model, rows, Some(kind)) == Some(RowToParams(rows[k]))
  {
    forall j | 0 <= j < |rows|
      ensures TierOf(model, rows[j], Some(kind)) != Exact
      ensures TierOf(model, rows[j], Some(kind)) == SameKind ==> Covers(model, rows[j]) && rows[j].kind == Some(kind)
    {
      TierIff(model, rows[j], Some(kind));
    }
    TierIff(model, rows[k], Some(kind));
    NoneIs(model, rows, Some(kind), Exact);
    BestIs(model, rows, Some(kind), SameKind, k);
  }

  /** Without that it is the longest wildcard of no kind; wildcards of another kind never match. */
  lemma {:induction false} LongestKindlessMatches(model: string, rows: seq<Row>, kind: string, k: nat)
    requires forall j | 0 <= j < |rows| :: !Names(model, rows[j]) && !(Covers(model, rows[j]) && rows[j].kind == Some(kind))
    requires k < |rows| && Covers(model, rows[k]) && rows[k].kind == None
    requires forall j | 0 <= j < |rows| && Covers(model, rows[j]) && rows[j].kind == None ::
               |rows[j].pattern| <= |rows[k].pattern| && (j < k ==> |rows[j].pattern| < |rows[k].pattern|)
    ensures BestMatch(model, rows, Some(kind)) == Some(RowToParams(rows[k]))
  {
    forall j | 0 <= j < |rows|
      ensures TierOf(model, rows[j], Some(kind)) != Exact && TierOf(model, rows[j], Some(kind)) != SameKind
      ensures TierOf(model, rows[j], Some(kind)) == Universal ==> Covers(model, rows[j]) && rows[j].kind == None
    {
      TierIff(model, rows[j], Some(kind));
    }
    TierIff(model, rows[k], Some(kind));
    NoneIs(model, rows, Some(kind), Exact);
    NoneIs(model, rows, Some(kind), SameKind);
    BestIs(model, rows, Some(kind), Universal, k);
  }

  /** Exact patterns have the model's length, so the first one is the best of its tier. */
  lemma {:induction false} ExactLength(model: string, row: Row, target: Option<string>)
    requires TierOf(model, row, target) == Exact
    ensures |row.pattern| == |model|
  {
  }

  lemma {:induction false} FirstExactStays(model: string, rows: seq<Row>, target: Option<string>, k: nat, n: nat)
    requires k < n <= |rows| && BestOf(model, rows, target, Exact, k) == None && TierOf(model, rows[k], target) == Exact
    ensures BestOf(model, rows, target, Exact, n) == Some(k)
  {
    ExactLength(model, rows[k], target);
    if n > k + 1 {
      FirstExactStays(model, rows, target, k, n - 1);
      if TierOf(model, rows[n - 1], target) == Exact {
        ExactLength(model, rows[n - 1], target);
      }
    }
  }

  /** `_best_match`: one pass that stops at the first exact row. */
  method FindBestMatch(model: string, rows: seq<Row>, target: Option<string>) returns (r: Option<Params>)
    ensures r == BestMatch(model, rows, target)
  {
    var kindWildcard: Option<Params>, kindLength: int := None, -1;
    var universalWildcard: Option<Params>, universalLength: int := None, -1;
    for i := 0 to |rows|
      invariant BestOf(model, rows, target, Exact, i) == None
      invariant kindWildcard == Pick(rows, BestOf(model, rows, target, SameKind, i))
      invariant kindLength == LengthOf(rows, BestOf(model, rows, target, SameKind, i))
      invariant universalWildcard == Pick(rows, BestOf(model, rows, target, Universal, i))
      invariant universalLength == LengthOf(rows, BestOf(model, rows, target, Universal, i))
    {
      var row := rows[i];
      if MatchPattern(model, row.pattern) {
        if !IsWildcard(row.pattern) {
          FirstExactStays(model, rows, target, i, |rows|);
          return Some(RowToParams(row));
        }
        if !(target.Some? && row.kind.Some? && row.kind != target) {
          if row.kind == target && target.Some? {
            if |row.pattern| > kindLength {
              kindWildcard, kindLength := Some(RowToParams(row)), |row.pattern|;
            }
          } else {
            if |row.pattern| > universalLength {
              universalWildcard, universalLength := Some(RowToParams(row)), |row.pattern|;
            }
          }
        }
      }
    }
    return if kindWildcard.Some? then kindWildcard else universalWildcard;
  }

  function LengthOf(rows: seq<Row>, k: Option<nat>): int
    requires k.Some? ==> k.value < |rows|
  {
    if k.Some? then |rows[k.value].pattern| else -1
  }

  // ---------------------------------------------------------------- resolution

  /** The code's own defaults and kind inference, functions of the model name. */
  datatype Defaults = Defaults(builtin: string -> Params, inferKind: string -> string)

  function Uncached(d: Defaults, model: string, tenantRows: seq<Row>, platformRows: seq<Row>): Params {
    var target := Some(d.inferKind(model));
    Merged([BestMatch(model, tenantRows, target), BestMatch(model, platformRows, target), Some(d.builtin(model))])
  }

  function SetBy(p: Option<Params>, f: Field): Option<Value> {
    if p.Some? && f in p.value then Some(p.value[f]) else None
  }

  /** Each field is the tenant's, else the platform's, else the built-in one: a tenant wildcard beats a platform exact match. */
  lemma {:induction false} FieldPrecedence(d: Defaults, model: string, tenantRows: seq<Row>, platformRows: seq<Row>, f: Field)
    ensures var target := Some(d.inferKind(model));
            var t := SetBy(BestMatch(model, tenantRows, target), f);
            var p := SetBy(BestMatch(model, platformRows, target), f);
            SetBy(Some(Uncached(d, model, tenantRows, platformRows)), f)
            == if t.Some? then t else if p.Some? then p else SetBy(Some(d.builtin(model)), f)
  {
    var target := Some(d.inferKind(model));
    var t, p, b := BestMatch(model, tenantRows, target), BestMatch(model, platformRows, target), Some(d.builtin(model));
    MergedIsFirstSet([t, p, b], f);
    FirstOfThree(t, p, b, f);
  }

  lemma {:induction false} FirstOfThree(t: Option<Params>, p: Option<Params>, b: Option<Params>, f: Field)
    ensures FirstSet([t, p, b], f)
            == if SetBy(t, f).Some? then SetBy(t, f) else if SetBy(p, f).Some? then SetBy(p, f) else SetBy(b, f)
  {
    assert [t, p, b][1..] == [p, b] && [p, b][1..] == [b] && [b][1..] == [];
    assert FirstSet([b], f) == SetBy(b, f);
    assert FirstSet([p, b], f) == if SetBy(p, f).Some? then SetBy(p, f) else SetBy(b, f);
  }

  /** The row's own column: its kind, or the value it stores for the field. */
  function ColumnOf(row: Row, f: Field): Option<Value> {
    if f == Kind then (if row.kind.Some? then Some(Word(row.kind.value)) else None)
    else if f in row.params then Some(row.params[f]) else None
  }

  /** What a row gives for a field is its column, with a kind or without. */
  lemma {:induction false} RowGivesColumns(row: Row, f: Field)
    ensures SetBy(Some(RowToParams(row)), f) == ColumnOf(row, f)
  {
  }

  /** So a field the tenant's first row for the model sets is that row's column, whatever the platform and the code say. */
  lemma {:induction false} TenantRowDecides(d: Defaults, model: string, tenantRows: seq<Row>, platformRows: seq<Row>, k: nat, f: Field)
    requires k < |tenantRows| && Names(model, tenantRows[k]) && forall j | 0 <= j < k :: !Names(model, tenantRows[j])
    requires ColumnOf(tenantRows[k], f).Some?
    ensures SetBy(Some(Uncached(d, model, tenantRows, platformRows)), f) == ColumnOf(tenantRows[k], f)
  {
    FieldPrecedence(d, model, tenantRows, platformRows, f);
    FirstNamedRowMatches(model, tenantRows, Some(d.inferKind(model)), k);
    RowGivesColumns(tenantRows[k], f);
  }

  // ---------------------------------------------------------------- the documented order

  /** The matches of both levels, exact and wildcard apart, and the built-in profile. */
  datatype Matches = Matches(tenantExact: Option<Params>, platformExact: Option<Params>,
                             tenantWildcard: Option<Params>, platformWildcard: Option<Params>, builtin: Params)

  function MatchesOf(d: Defaults, model: string, tenantRows: seq<Row>, platformRows: seq<Row>): Matches {
    var target := Some(d.inferKind(model));
    Matches(Pick(tenantRows, ExactRow(model, tenantRows, target)), Pick(platformRows, ExactRow(model, platformRows, target)),
            Pick(tenantRows, WildcardRow(model, tenantRows, target)), Pick(platformRows, WildcardRow(model, platformRows, target)),
            d.builtin(model))
  }

  /** The chain of the module's documentation: exact matches of both levels before wildcards of both levels. */
  function Documented(m: Matches): Params {
    Merged([m.tenantExact, m.platformExact, m.tenantWildcard, m.platformWildcard, Some(m.builtin)])
  }

  datatype Source = TenantExact | PlatformExact | TenantWildcard | PlatformWildcard | Builtin

  function ValueFrom(m: Matches, source: Source, f: Field): Option<Value> {
    match source
    case TenantExact => SetBy(m.tenantExact, f)
    case PlatformExact => SetBy(m.platformExact, f)
    case TenantWildcard => SetBy(m.tenantWildcard, f)
    case PlatformWildcard => SetBy(m.platformWildcard, f)
    case Builtin => SetBy(Some(m.builtin), f)
  }

  predicate Sets(m: Matches, source: Source, f: Field) {
    ValueFrom(m, source, f).Some?
  }

  /** Where the documentation has the field come from. */
  function DocumentedSource(m: Matches, f: Field): Source {
    if Sets(m, TenantExact, f) then TenantExact
    else if Sets(m, PlatformExact, f) then PlatformExact
    else if Sets(m, TenantWildcard, f) then TenantWildcard
    else if Sets(m, PlatformWildcard, f) then PlatformWildcard
    else Builtin
  }

  /** Where it does come from: one match per level, an exact row hiding the level's wildcard. */
  function ActualSource(m: Matches, f: Field): Source {
    var tenant := if m.tenantExact.Some? then TenantExact else TenantWildcard;
    var platform := if m.platformExact.Some? then PlatformExact else PlatformWildcard;
    if Sets(m, tenant, f) then tenant else if Sets(m, platform, f) then platform else Builtin
  }

  /**
   * The rows between which the two orders cannot differ on the field: the tenant's exact row sets it; or it
   * leaves it to levels whose hidden wildcards do not set it; or, without such a row, no exact row of the
   * platform stands between the tenant's wildcard and the field, nor hides a platform wildcard that sets it.
   */
  predicate OrderIrrelevant(m: Matches, f: Field) {
    if Sets(m, TenantExact, f) then true
    else if m.tenantExact.Some? then
      if m.platformExact.None? then !Sets(m, TenantWildcard, f)
      else Sets(m, PlatformExact, f) || (!Sets(m, TenantWildcard, f) && !Sets(m, PlatformWildcard, f))
    else if Sets(m, TenantWildcard, f) then !Sets(m, PlatformExact, f)
    else m.platformExact.None? || Sets(m, PlatformExact, f) || !Sets(m, PlatformWildcard, f)
  }

  lemma {:induction false} FirstOfFive(m: Matches, f: Field)
    ensures SetBy(Some(Documented(m)), f) == ValueFrom(m, DocumentedSource(m, f), f)
  {
    var chain := [m.tenantExact, m.platformExact, m.tenantWildcard, m.platformWildcard, Some(m.builtin)];
    MergedIsFirstSet(chain, f);
    assert chain[1..] == [m.platformExact, m.tenantWildcard, m.platformWildcard, Some(m.builtin)];
    assert chain[1..][1..] == [m.tenantWildcard, m.platformWildcard, Some(m.builtin)];
    FirstOfThree(m.tenantWildcard, m.platformWildcard, Some(m.builtin), f);
  }

  lemma {:induction false} ActualValue(d: Defaults, model: string, tenantRows: seq<Row>, platformRows: seq<Row>, f: Field)
    ensures var m := MatchesOf(d, model, tenantRows, platformRows);
            SetBy(Some(Uncached(d, model, tenantRows, platformRows)), f) == ValueFrom(m, ActualSource(m, f), f)
  {
    FieldPrecedence(d, model, tenantRows, platformRows, f);
  }

  lemma {:induction false} SourcesAgreeIff(m: Matches, f: Field)
    ensures ActualSource(m, f) == DocumentedSource(m, f) <==> OrderIrrelevant(m, f)
  {
  }

  /** No two of the five set the field to the same value. */
  ghost predicate Distinguishable(m: Matches, f: Field) {
    forall a: Source, b: Source :: a != b && Sets(m, a, f) ==> ValueFrom(m, a, f) != ValueFrom(m, b, f)
  }

  /**
   * Field by field the resolver gives what its documentation promises wherever the order is irrelevant, and,
   * unless two sources happen to set the field to the same value, nowhere else.
   */
  lemma {:induction false} DocumentedOrderIff(d: Defaults, model: string, tenantRows: seq<Row>, platformRows: seq<Row>, f: Field)
    ensures var m := MatchesOf(d, model, tenantRows, platformRows);
            var same := SetBy(Some(Uncached(d, model, tenantRows, platformRows)), f) == SetBy(Some(Documented(m)), f);
            && (OrderIrrelevant(m, f) ==> same)
            && (Distinguishable(m, f) ==> (same <==> OrderIrrelevant(m, f)))
  {
    var m := MatchesOf(d, model, tenantRows, platformRows);
    ActualValue(d, model, tenantRows, platformRows, f);
    FirstOfFive(m, f);
    SourcesAgreeIff(m, f);
    if Distinguishable(m, f) {
      OrdersDiffer(m, f);
    }
  }

  lemma {:induction false} OrdersDiffer(m: Matches, f: Field)
    requires Distinguishable(m, f)
    ensures ValueFrom(m, ActualSource(m, f), f) == ValueFrom(m, DocumentedSource(m, f), f)
            <==> ActualSource(m, f) == DocumentedSource(m, f)
  {
    var a, b := ActualSource(m, f), DocumentedSource(m, f);
    assert Sets(m, a, f) ==> Sets(m, b, f);
  }

  lemma {:induction false} BestUnique(model: string, rows: seq<Row>, target: Option<string>, tier: Tier, k: nat)
    requires IsBest(model, rows, target, tier, |rows|, k)
    ensures BestOf(model, rows, target, tier, |rows|) == Some(k)
  {
    BestOfIsBest(model, rows, target, tier, |rows|);
    var j := BestOf(model, rows, target, tier, |rows|);
    assert j.Some?;
    assert |rows[j.value].pattern| == |rows[k].pattern|;
  }

  /**
   * The documentation also says that kinds are not looked at. The wildcard chosen is the longest of all
   * exactly when that one is of the model's kind, or of no kind while no wildcard of the model's kind matches.
   */
  lemma {:induction false} KindFilterIff(model: string, rows: seq<Row>, kind: string)
    ensures var longest := BestOf(model, rows, None, Universal, |rows|);
            WildcardRow(model, rows, Some(kind)) == longest
            <==> longest.None? || rows[longest.value].kind == Some(kind)
                 || (rows[longest.value].kind.None? && TierEmpty(model, rows, Some(kind), SameKind, |rows|))
  {
    var target := Some(kind);
    var longest := BestOf(model, rows, None, Universal, |rows|);
    BestOfIsBest(model, rows, None, Universal, |rows|);
    BestOfIsBest(model, rows, target, SameKind, |rows|);
    BestOfIsBest(model, rows, target, Universal, |rows|);
    forall j | 0 <= j < |rows| && TierOf(model, rows[j], target) in {SameKind, Universal}
      ensures TierOf(model, rows[j], None) == Universal
    {
    }
    if longest.Some? {
      var k := longest.value;
      if rows[k].kind == target {
        assert IsBest(model, rows, target, SameKind, |rows|, k);
        BestUnique(model, rows, target, SameKind, k);
      } else if rows[k].kind.None? && TierEmpty(model, rows, target, SameKind, |rows|) {
        assert IsBest(model, rows, target, Universal, |rows|, k);
        BestUnique(model, rows, target, Universal, k);
      }
    }
  }

  /** The smallest case: the tenant's `q*` sets the temperature although the platform has a row for `q`. */
  lemma {:induction false} DocumentedOrderFails(d: Defaults)
    ensures var tenantRows := [Row("q*", None, map[Temperature := Number(1.0)])];
            var platformRows := [Row("q", None, map[Temperature := Number(2.0)])];
            var m := MatchesOf(d, "q", tenantRows, platformRows);
            && SetBy(Some(Uncached(d, "q", tenantRows, platformRows)), Temperature) == Some(Number(1.0))
            && SetBy(Some(Documented(m)), Temperature) == Some(Number(2.0))
  {
    var row := Row("q*", None, map[Temperature := Number(1.0)]);
    var platformRow := Row("q", None, map[Temperature := Number(2.0)]);
    var target := Some(d.inferKind("q"));
    assert row.pattern[..1] == "q";
    assert TierOf("q", row, target) == Universal && TierOf("q", platformRow, target) == Exact;
    SingleTier("q", row, target);
    SingleTier("q", platformRow, target);
    var m := MatchesOf(d, "q", [row], [platformRow]);
    assert m.tenantExact == None && m.tenantWildcard == Some(RowToParams(row)) && m.platformExact == Some(RowToParams(platformRow));
    FirstOfFive(m, Temperature);
    ActualValue(d, "q", [row], [platformRow], Temperature);
  }

  lemma {:induction false} SingleTier(model: string, row: Row, target: Option<string>)
    ensures forall tier: Tier :: BestOf(model, [row], target, tier, 1) == if TierOf(model, row, target) == tier then Some(0) else None
  {
    forall tier: Tier ensures BestOf(model, [row], target, tier, 1) == if TierOf(model, row, target) == tier then Some(0) else None {
      assert BestOf(model, [row], target, tier, 0) == None;
    }
  }

  // ---------------------------------------------------------------- the two-level cache

  const TTL := 60.0

  /** A profile as a function of the model and of the two sets of rows. */
  type Resolution = (string, seq<Row>, seq<Row>) -> Params

  ghost predicate Agrees(f: Resolution, d: Defaults) {
    forall model: string, tenantRows: seq<Row>, platformRows: seq<Row> {:trigger Uncached(d, model, tenantRows, platformRows)} ::
      f(model, tenantRows, platformRows) == Uncached(d, model, tenantRows, platformRows)
  }

  type Key = (string, string)  // model, tenant
  datatype Cached<T> = Cached(value: T, expiresAt: real)
  datatype TenantRead = TenantRead(time: real, tenant: string, rows: seq<Row>)
  datatype PlatformRead = PlatformRead(time: real, rows: seq<Row>)

  /** A position in each of the two lists of database reads. */
  datatype Mark = Mark(tenant: nat, platform: nat)

  /** Every read of the database so far, and where an invalidation last fenced off the earlier ones. */
  datatype History = History(tenants: seq<TenantRead>, platforms: seq<PlatformRead>, fences: map<string, Mark>, fence: Mark)

  function FenceOf(h: History, tenant: string): Mark {
    if tenant in h.fences then h.fences[tenant] else h.fence
  }

  function End(h: History): Mark {
    Mark(|h.tenants|, |h.platforms|)
  }

  function Invalidated(h: History, tenant: Option<string>): History {
    if tenant.None? then h.(fences := map[], fence := End(h)) else h.(fences := h.fences[tenant.value := End(h)])
  }

  predicate SameFences(h: History, g: History) {
    h.fences == g.fences && h.fence == g.fence
  }

  /** The profile is the uncached merge of two reads, neither made before the tenant's last invalidation. */
  predicate BuiltFrom(f: Resolution, h: History, key: Key, p: Params, m: Mark) {
    && m.tenant < |h.tenants| && m.platform < |h.platforms| && h.tenants[m.tenant].tenant == key.1
    && p == f(key.0, h.tenants[m.tenant].rows, h.platforms[m.platform].rows)
    && FenceOf(h, key.1).tenant <= m.tenant && FenceOf(h, key.1).platform <= m.platform
  }

  predicate EntryOk(f: Resolution, h: History, key: Key, entry: Cached<Params>, m: Mark) {
    && BuiltFrom(f, h, key, entry.value, m)
    && entry.expiresAt == h.tenants[m.tenant].time + TTL
    && h.platforms[m.platform].time > h.tenants[m.tenant].time - TTL
  }

  ghost predicate CacheOk(f: Resolution, h: History, cache: map<Key, Cached<Params>>, builtFrom: map<Key, Mark>) {
    forall key | key in cache :: key in builtFrom && EntryOk(f, h, key, cache[key], builtFrom[key])
  }

  ghost predicate PlatformOk(h: History, platformCache: Option<Cached<seq<Row>>>, from: nat) {
    platformCache.Some? ==>
      && from < |h.platforms| && platformCache.value.value == h.platforms[from].rows
      && platformCache.value.expiresAt == h.platforms[from].time + TTL
      && FencedBefore(h, from)
  }

  ghost predicate FencedBefore(h: History, from: nat) {
    forall t: string :: FenceOf(h, t).platform <= from
  }

  ghost predicate FencesOk(h: History) {
    forall t: string :: FenceOf(h, t).tenant <= |h.tenants| && FenceOf(h, t).platform <= |h.platforms|
  }

  lemma {:induction false} ReadsKeep(f: Resolution, h: History, g: History, cache: map<Key, Cached<Params>>, builtFrom: map<Key, Mark>)
    requires CacheOk(f, h, cache, builtFrom) && FencesOk(h)
    requires h.tenants <= g.tenants && h.platforms <= g.platforms && SameFences(h, g)
    ensures CacheOk(f, g, cache, builtFrom) && FencesOk(g)
  {
    forall key | key in cache ensures key in builtFrom && EntryOk(f, g, key, cache[key], builtFrom[key]) {
      assert EntryOk(f, h, key, cache[key], builtFrom[key]);
      assert FenceOf(g, key.1) == FenceOf(h, key.1);
    }
    forall t: string ensures FenceOf(g, t).tenant <= |g.tenants| && FenceOf(g, t).platform <= |g.platforms| {
      assert FenceOf(g, t) == FenceOf(h, t);
    }
  }

  lemma {:induction false} StoreKeeps(f: Resolution, h: History, cache: map<Key, Cached<Params>>, builtFrom: map<Key, Mark>,
                                      key: Key, entry: Cached<Params>, m: Mark)
    requires CacheOk(f, h, cache, builtFrom) && EntryOk(f, h, key, entry, m)
    ensures CacheOk(f, h, cache[key := entry], builtFrom[key := m])
  {
  }

  /** A profile built now, from rows just read for the tenant and platform rows not yet TTL old, may be stored. */
  lemma {:induction false} StoreBuilt(f: Resolution, h: History, cache: map<Key, Cached<Params>>, builtFrom: map<Key, Mark>, model: string,
                                      tenant: string, tenantRows: seq<Row>, platformRows: seq<Row>, p: Params, now: real, m: Mark)
    requires CacheOk(f, h, cache, builtFrom) && m.tenant < |h.tenants| && m.platform < |h.platforms|
    requires h.tenants[m.tenant] == TenantRead(now, tenant, tenantRows)
    requires h.platforms[m.platform].rows == platformRows && h.platforms[m.platform].time > now - TTL
    requires FenceOf(h, tenant).tenant <= m.tenant && FenceOf(h, tenant).platform <= m.platform
    requires p == f(model, tenantRows, platformRows)
    ensures CacheOk(f, h, cache[(model, tenant) := Cached(p, now + TTL)], builtFrom[(model, tenant) := m])
  {
    StoreKeeps(f, h, cache, builtFrom, (model, tenant), Cached(p, now + TTL), m);
  }

  function Kept(cache: map<Key, Cached<Params>>, tenant: Option<string>): map<Key, Cached<Params>> {
    map key | key in cache && tenant.Some? && key.1 != tenant.value :: cache[key]
  }

  /** What an invalidation keeps: the entries of the other tenants as they are, and nothing if it is for all. */
  lemma {:induction false} KeptAreOthers(cache: map<Key, Cached<Params>>, tenant: Option<string>, key: Key)
    ensures key in Kept(cache, tenant) <==> key in cache && tenant != None && Some(key.1) != tenant
    ensures key in Kept(cache, tenant) ==> Kept(cache, tenant)[key] == cache[key]
  {
  }

  lemma {:induction false} InvalidationKeeps(f: Resolution, h: History, tenant: Option<string>,
                                             cache: map<Key, Cached<Params>>, builtFrom: map<Key, Mark>)
    requires CacheOk(f, h, cache, builtFrom) && FencesOk(h)
    ensures FencesOk(Invalidated(h, tenant))
    ensures forall t: string | tenant.None? || t == tenant.value :: FenceOf(Invalidated(h, tenant), t) == End(h)
    ensures CacheOk(f, Invalidated(h, tenant), Kept(cache, tenant), builtFrom)
  {
    var g := Invalidated(h, tenant);
    forall t: string ensures FenceOf(g, t) == End(h) || (FenceOf(g, t) == FenceOf(h, t) && tenant.Some? && t != tenant.value) {
    }
    forall key | key in cache && tenant.Some? && key.1 != tenant.value
      ensures key in builtFrom && EntryOk(f, g, key, cache[key], builtFrom[key])
    {
      assert EntryOk(f, h, key, cache[key], builtFrom[key]);
      assert FenceOf(g, key.1) == FenceOf(h, key.1);
    }
    forall t: string ensures FenceOf(g, t).tenant <= |g.tenants| && FenceOf(g, t).platform <= |g.platforms| {
      assert FenceOf(h, t).tenant <= |h.tenants| && FenceOf(h, t).platform <= |h.platforms|;
    }
  }

  class ModelProfileResolver {
    const defaults: Defaults
    ghost const uncached: Resolution
    var cache: map<Key, Cached<Params>>
    var platformCache: Option<Cached<seq<Row>>>

    // the database and the clock
    var tenantTable: map<string, seq<Row>>
    var platformTable: seq<Row>
    var clock: real

    // the reads made so far, and the ones each entry was built from
    ghost var history: History
    ghost var builtFrom: map<Key, Mark>
    ghost var platformFrom: nat

    ghost predicate Valid()
      reads this
    {
      && Agrees(uncached, defaults)
      && CacheOk(uncached, history, cache, builtFrom)
      && PlatformOk(history, platformCache, platformFrom)
      && FencesOk(history)
    }

    constructor (defaults: Defaults, tenantTable: map<string, seq<Row>>, platformTable: seq<Row>, clock: real)
      ensures Valid() && this.defaults == defaults
    {
      this.defaults, this.tenantTable, this.platformTable, this.clock := defaults, tenantTable, platformTable, clock;
      uncached := (model, tenantRows, platformRows) => Uncached(defaults, model, tenantRows, platformRows);
      cache, platformCache := map[], None;
      history, builtFrom, platformFrom := History([], [], map[], Mark(0, 0)), map[], 0;
    }

    /** Time passes. */
    method Tick(d: real)
      requires Valid() && d >= 0.0
      modifies this`clock
      ensures Valid() && clock == old(clock) + d
    {
      clock := clock + d;
    }

    /** An administrator edits the profiles. */
    method Edit(tenants: map<string, seq<Row>>, platform: seq<Row>)
      requires Valid()
      modifies this`tenantTable, this`platformTable
      ensures Valid() && tenantTable == tenants && platformTable == platform
    {
      tenantTable, platformTable := tenants, platform;
    }

    function RowsOf(tenant: string): seq<Row>
      reads this
    {
      if tenant in tenantTable then tenantTable[tenant] else []
    }

    /** A failing fetch answers with no rows. */
    method FetchTenantRows(tenant: string, ok: bool) returns (rows: seq<Row>)
      requires Valid()
      modifies this`history
      ensures Valid()
      ensures rows == if ok then RowsOf(tenant) else []
      ensures history == old(history).(tenants := old(history).tenants + [TenantRead(clock, tenant, rows)])
    {
      rows := if ok then RowsOf(tenant) else [];
      ghost var before := history;
      history := history.(tenants := history.tenants + [TenantRead(clock, tenant, rows)]);
      ReadsKeep(uncached, before, history, cache, builtFrom);
      assert platformCache.Some? ==> FencedBefore(before, platformFrom);
      assert forall t: string :: FenceOf(history, t) == FenceOf(before, t);
    }

    method GetPlatformRows(ok: bool) returns (rows: seq<Row>)
      requires Valid()
      modifies this`history, this`platformFrom, this`platformCache
      ensures Valid() && SameFences(old(history), history)
      ensures old(history).platforms <= history.platforms && history.tenants == old(history).tenants
      ensures platformFrom < |history.platforms| && rows == history.platforms[platformFrom].rows
      ensures history.platforms[platformFrom].time > clock - TTL && FencedBefore(history, platformFrom)
      ensures old(platformCache).None? ==> rows == if ok then platformTable else []
    {
      if platformCache.Some? && clock < platformCache.value.expiresAt {
        return platformCache.value.value;
      }
      rows := if ok then platformTable else [];
      ghost var before := history;
      history := history.(platforms := history.platforms + [PlatformRead(clock, rows)]);
      ReadsKeep(uncached, before, history, cache, builtFrom);
      platformFrom := |before.platforms|;
      assert FencesOk(before) && forall t: string :: FenceOf(history, t) == FenceOf(before, t);
      platformCache := Some(Cached(rows, clock + TTL));
    }

    method CacheLookup(model: string, tenant: string) returns (p: Option<Params>, ghost m: Mark)
      requires Valid()
      ensures p == if (model, tenant) in cache && clock < cache[(model, tenant)].expiresAt then Some(cache[(model, tenant)].value) else None
      ensures p.Some? ==> BuiltFrom(uncached, history, (model, tenant), p.value, m)
      ensures p.Some? ==> history.tenants[m.tenant].time > clock - TTL && history.platforms[m.platform].time > clock - 2.0 * TTL
    {
      var key := (model, tenant);
      m := Mark(0, 0);
      if key in cache && clock < cache[key].expiresAt {
        m := builtFrom[key];
        assert EntryOk(uncached, history, key, cache[key], m);
        return Some(cache[key].value), m;
      }
      p := None;
    }

    /**
     * A served profile is the uncached merge of tenant rows read less than TTL ago and platform rows read
     * less than twice TTL ago, and none of them was read before the tenant's last invalidation.
     */
    method Resolve(model: string, tenant: string, tenantOk: bool, platformOk: bool) returns (p: Params, ghost m: Mark)
      requires Valid()
      modifies this`cache, this`builtFrom, this`history, this`platformFrom, this`platformCache
      ensures Valid() && SameFences(old(history), history)
      ensures old(history).platforms <= history.platforms && old(history).tenants <= history.tenants
      ensures BuiltFrom(uncached, history, (model, tenant), p, m)
      ensures history.tenants[m.tenant].time > clock - 60.0 && history.platforms[m.platform].time > clock - 120.0
      ensures (model, tenant) in old(cache) && clock < old(cache)[(model, tenant)].expiresAt ==>
                p == old(cache)[(model, tenant)].value && history == old(history) && cache == old(cache)
      ensures (model, tenant) !in old(cache) && old(platformCache).None? ==>
                p == uncached(model, if tenantOk then RowsOf(tenant) else [], if platformOk then platformTable else [])
    {
      var cached;
      cached, m := CacheLookup(model, tenant);
      if cached.Some? {
        return cached.value, m;
      }
      var platformRows := GetPlatformRows(platformOk);
      ghost var between := history;
      var tenantRows := FetchTenantRows(tenant, tenantOk);
      m := Mark(|between.tenants|, platformFrom);
      assert FencesOk(between) && FenceOf(history, tenant) == FenceOf(between, tenant);
      p := BuildAndCache(model, tenant, platformRows, tenantRows, m);
    }

    method BuildAndCache(model: string, tenant: string, platformRows: seq<Row>, tenantRows: seq<Row>, ghost m: Mark) returns (p: Params)
      requires Valid() && m.tenant < |history.tenants| && m.platform < |history.platforms|
      requires history.tenants[m.tenant] == TenantRead(clock, tenant, tenantRows)
      requires history.platforms[m.platform].rows == platformRows && history.platforms[m.platform].time > clock - TTL
      requires FenceOf(history, tenant).tenant <= m.tenant && FenceOf(history, tenant).platform <= m.platform
      modifies this`cache, this`builtFrom
      ensures Valid() && p == uncached(model, tenantRows, platformRows)
      ensures cache == old(cache)[(model, tenant) := Cached(p, clock + TTL)]
    {
      p := Build(defaults, uncached, model, tenantRows, platformRows);
      StoreBuilt(uncached, history, cache, builtFrom, model, tenant, tenantRows, platformRows, p, clock, m);
      cache := cache[(model, tenant) := Cached(p, clock + TTL)];
      builtFrom := builtFrom[(model, tenant) := m];
    }

    /** One tenant's entries, or all of them, and in either case the platform rows. */
    method Invalidate(tenant: Option<string>)
      requires Valid()
      modifies this`cache, this`platformCache, this`history
      ensures Valid() && platformCache == None && history == Invalidated(old(history), tenant)
      ensures cache == Kept(old(cache), tenant)
      ensures forall t: string | tenant.None? || t == tenant.value :: FenceOf(history, t) == End(history)
    {
      InvalidationKeeps(uncached, history, tenant, cache, builtFrom);
      ghost var kept := Kept(cache, tenant);
      history := Invalidated(history, tenant);
      platformCache := None;
      if tenant.None? {
        cache := map[];
      } else {
        var keysToRemove := set key | key in cache && key.1 == tenant.value;
        cache := cache - keysToRemove;
      }
      assert cache == kept;
    }
  }

  method Build(d: Defaults, ghost f: Resolution, model: string, tenantRows: seq<Row>, platformRows: seq<Row>) returns (p: Params)
    requires Agrees(f, d)
    ensures p == f(model, tenantRows, platformRows)
  {
    var target := Some(d.inferKind(model));
    var tenantMatch := FindBestMatch(model, tenantRows, target);
    var platformMatch := FindBestMatch(model, platformRows, target);
    p := Merge([tenantMatch, platformMatch, Some(d.builtin(model))]);
    assert p == Uncached(d, model, tenantRows, platformRows);
  }

  /** The first resolve after invalidating the tenant, or everything, serves the tables as they are. */
  method ResolveAfterInvalidation(r: ModelProfileResolver, scope: Option<string>, model: string, tenant: string) returns (p: Params)
    requires r.Valid() && (scope.Some? ==> scope.value == tenant)
    modifies r
    ensures p == Uncached(r.defaults, model, old(r.RowsOf(tenant)), old(r.platformTable))
  {
    r.Invalidate(scope);
    ghost var m;
    p, m := r.Resolve(model, tenant, true, true);
  }
}
