/**
 * The search box of the previews screen: a blank query (only white space,
 * in the sense of JavaScript's `String.prototype.trim`) shows every
 * deployment; any other query keeps, in order, the deployments whose
 * lower-cased, space-joined searchable fields contain the lower-cased query.
 * The query itself is lower-cased but not trimmed.
 *
 * Lower-casing is ASCII only.
 */
module DeploymentSearch {
  import opened JsValues
  import opened Previews

  // ---------------------------------------------------------------- trimming

  /** The characters `trim` removes: ECMAScript WhiteSpace and LineTerminator. */
  predicate IsWhitespace(c: char) {
    || c == '\t' || c == '\n' || c == '\U{000B}' || c == '\U{000C}' || c == '\r' || c == ' '
    || c == '\U{00A0}' || c == '\U{1680}' || ('\U{2000}' <= c <= '\U{200A}')
    || c == '\U{2028}' || c == '\U{2029}' || c == '\U{202F}' || c == '\U{205F}'
    || c == '\U{3000}' || c == '\U{FEFF}'
  }

  predicate AllWhitespace(s: string) {
    forall i :: 0 <= i < |s| ==> IsWhitespace(s[i])
  }

  function TrimStart(s: string): string {
    if |s| > 0 && IsWhitespace(s[0]) then TrimStart(s[1..]) else s
  }

  function TrimEnd(s: string): string {
    if |s| > 0 && IsWhitespace(s[|s| - 1]) then TrimEnd(s[..|s| - 1]) else s
  }

  function Trim(s: string): string {
    TrimEnd(TrimStart(s))
  }

  lemma {:induction false} TrimStartEmptyIff(s: string)
    ensures TrimStart(s) == "" <==> AllWhitespace(s)
    ensures TrimStart(s) != "" ==> !IsWhitespace(TrimStart(s)[0])
    decreases |s|
  {
    if |s| > 0 && IsWhitespace(s[0]) {
      TrimStartEmptyIff(s[1..]);
      assert AllWhitespace(s) <==> AllWhitespace(s[1..]) by {
        if AllWhitespace(s[1..]) {
          forall i | 0 <= i < |s| ensures IsWhitespace(s[i]) {
            if i > 0 { assert s[i] == s[1..][i - 1]; }
          }
        }
      }
    }
  }

  /** `TrimEnd` only strips a suffix, so it keeps a leading non-white character. */
  lemma {:induction false} TrimEndKeepsNonWhiteHead(s: string)
    requires |s| > 0 && !IsWhitespace(s[0])
    ensures TrimEnd(s) != "" && TrimEnd(s)[0] == s[0]
    decreases |s|
  {
    if IsWhitespace(s[|s| - 1]) {
      TrimEndKeepsNonWhiteHead(s[..|s| - 1]);
    }
  }

  /** `query.trim()` is falsy exactly when the query is all white space. */
  lemma TrimEmptyIffAllWhitespace(s: string)
    ensures Trim(s) == "" <==> AllWhitespace(s)
  {
    TrimStartEmptyIff(s);
    if TrimStart(s) != "" {
      TrimEndKeepsNonWhiteHead(TrimStart(s));
    }
  }

  // ------------------------------------------------------------ lower-casing

  function LowerChar(c: char): char {
    if 'A' <= c <= 'Z' then (c as int + 32) as char else c
  }

  /** ASCII-only `toLowerCase`. */
  function Lower(s: string): (r: string)
    ensures |r| == |s| && forall i :: 0 <= i < |s| ==> r[i] == LowerChar(s[i])
  {
    seq(|s|, i requires 0 <= i < |s| => LowerChar(s[i]))
  }

  /** Lower-casing never turns white space into something else or back. */
  lemma {:induction false} LowerKeepsWhitespace(q1: string, q2: string)
    requires Lower(q1) == Lower(q2)
    ensures AllWhitespace(q1) <==> AllWhitespace(q2)
  {
    assert |q1| == |q2|;
    forall i | 0 <= i < |q1|
      ensures IsWhitespace(q1[i]) <==> IsWhitespace(q2[i])
    {
      assert LowerChar(q1[i]) == Lower(q1)[i] == Lower(q2)[i] == LowerChar(q2[i]);
    }
  }

  // ------------------------------------------------------- searchable text

  /** The ten searched fields, in the order they are joined. */
  function SearchableFields(d: Deployment): seq<Option<string>> {
    var p := d.package;
    [ Some(d.id), Some(d.key), Some(d.name),
      if p.Some? then Some(p.value.description) else None,
      if p.Some? then Some(p.value.appVersion) else None,
      if p.Some? then Some(p.value.releaseLabel) else None,
      if p.Some? then Some(p.value.releasedBy) else None,
      if p.Some? then Some(p.value.packageHash) else None,
      d.createdTime,
      if p.Some? then Some(p.value.uploadTime) else None ]
  }

  /**
   * `.filter(Boolean)`: the present, non-empty strings, in order. The result
   * holds exactly the truthy fields' values; `TruthyStringsAppend` states
   * that it keeps their order.
   */
  function TruthyStrings(fields: seq<Option<string>>): (r: seq<string>)
    ensures |r| <= |fields|
    ensures forall i :: 0 <= i < |r| ==> r[i] != ""
    ensures forall s :: s in r <==> s != "" && Some(s) in fields
  {
    if fields == [] then []
    else
      assert fields == [fields[0]] + fields[1..];
      if Truthy(fields[0]) then [fields[0].value] + TruthyStrings(fields[1..])
      else TruthyStrings(fields[1..])
  }

  /** Filtering a concatenation filters each part and keeps the parts in order. */
  lemma {:induction false} TruthyStringsAppend(a: seq<Option<string>>, b: seq<Option<string>>)
    ensures TruthyStrings(a + b) == TruthyStrings(a) + TruthyStrings(b)
    decreases |a|
  {
    if a == [] {
      assert a + b == b;
    } else {
      assert (a + b)[0] == a[0];
      assert (a + b)[1..] == a[1..] + b;
      TruthyStringsAppend(a[1..], b);
      if Truthy(a[0]) {
        var x := [a[0].value];
        assert TruthyStrings(a + b) == x + (TruthyStrings(a[1..]) + TruthyStrings(b));
        assert x + (TruthyStrings(a[1..]) + TruthyStrings(b)) == (x + TruthyStrings(a[1..])) + TruthyStrings(b);
      }
    }
  }

  /** `.join(' ')`. */
  function JoinWithSpace(parts: seq<string>): string {
    if parts == [] then ""
    else if |parts| == 1 then parts[0]
    else parts[0] + " " + JoinWithSpace(parts[1..])
  }

  /** The lower-cased, space-joined truthy fields of `d`. */
  function SearchableText(d: Deployment): string {
    Lower(JoinWithSpace(TruthyStrings(SearchableFields(d))))
  }

  /** `text.includes(query)`: `query` occurs in `text` at some offset. */
  predicate Includes(text: string, query: string) {
    exists i | 0 <= i <= |text| :: OccursAt(text, query, i)
  }

  predicate OccursAt(text: string, query: string, i: int) {
    0 <= i && i + |query| <= |text| && text[i..i + |query|] == query
  }

  predicate Matches(d: Deployment, loweredQuery: string) {
    Includes(SearchableText(d), loweredQuery)
  }

  /** An occurrence in `b` is an occurrence in `a + b`, shifted by `|a|`. */
  lemma OccursInSuffix(a: string, b: string, q: string, i: int)
    requires OccursAt(b, q, i)
    ensures OccursAt(a + b, q, |a| + i)
  {
    assert (a + b)[|a| + i..|a| + i + |q|] == b[i..i + |q|];
  }

  /** An occurrence in `a` is an occurrence in `a + b` at the same offset. */
  lemma OccursInPrefix(a: string, b: string, q: string, i: int)
    requires OccursAt(a, q, i)
    ensures OccursAt(a + b, q, i)
  {
    assert (a + b)[i..i + |q|] == a[i..i + |q|];
  }

  /** An occurrence inside an occurrence is an occurrence. */
  lemma OccursWithin(text: string, part: string, q: string, i: int, j: int)
    requires OccursAt(text, part, i) && OccursAt(part, q, j)
    ensures OccursAt(text, q, i + j)
  {
    forall k | 0 <= k < |q|
      ensures text[i + j..i + j + |q|][k] == q[k]
    {
      assert text[i..i + |part|][j + k] == part[j + k];
      assert part[j..j + |q|][k] == q[k];
    }
  }

  /** Every part of a join occurs in the joined string. */
  lemma {:induction false} JoinContainsPart(parts: seq<string>, k: int)
    requires 0 <= k < |parts|
    ensures Includes(JoinWithSpace(parts), parts[k])
    decreases |parts|
  {
    if |parts| == 1 {
      assert OccursAt(JoinWithSpace(parts), parts[k], 0);
    } else {
      var head := parts[0] + " ";
      var rest := JoinWithSpace(parts[1..]);
      assert JoinWithSpace(parts) == head + rest;
      if k == 0 {
        assert OccursAt(parts[0], parts[0], 0);
        OccursInPrefix(parts[0], " " + rest, parts[0], 0);
        assert parts[0] + (" " + rest) == head + rest;
        assert OccursAt(head + rest, parts[k], 0);
      } else {
        JoinContainsPart(parts[1..], k - 1);
        var i :| 0 <= i <= |rest| && OccursAt(rest, parts[1..][k - 1], i);
        OccursInSuffix(head, rest, parts[k], i);
        assert OccursAt(head + rest, parts[k], |head| + i);
      }
    }
  }

  /** Lower-casing keeps every occurrence. */
  lemma LowerKeepsOccurrence(text: string, q: string, i: int)
    requires OccursAt(text, q, i)
    ensures OccursAt(Lower(text), Lower(q), i)
  {
    forall k | 0 <= k < |q|
      ensures Lower(text)[i..i + |q|][k] == Lower(q)[k]
    {
      assert text[i..i + |q|][k] == text[i + k] == q[k];
    }
  }

  /** The value of every truthy searchable field occurs, lower-cased, in the searchable text. */
  lemma TruthyFieldIsSearchable(d: Deployment, value: string)
    requires value != "" && Some(value) in SearchableFields(d)
    ensures Includes(SearchableText(d), Lower(value))
  {
    var parts := TruthyStrings(SearchableFields(d));
    assert value in parts;
    var k :| 0 <= k < |parts| && parts[k] == value;
    JoinContainsPart(parts, k);
    var joined := JoinWithSpace(parts);
    var i :| 0 <= i <= |joined| && OccursAt(joined, value, i);
    LowerKeepsOccurrence(joined, value, i);
    assert OccursAt(SearchableText(d), Lower(value), i);
  }

  // ---------------------------------------------------------------- filter

  /** `deployments.filter(...)`: the matching deployments in their original order. */
  function KeepMatching(ds: seq<Deployment>, loweredQuery: string): (r: seq<Deployment>)
    ensures |r| <= |ds|
    ensures forall d :: d in r ==> d in ds && Matches(d, loweredQuery)
  {
    if ds == [] then []
    else if Matches(ds[0], loweredQuery) then [ds[0]] + KeepMatching(ds[1..], loweredQuery)
    else KeepMatching(ds[1..], loweredQuery)
  }

  /** The `filteredDeployments` computation of the previews screen. */
  function FilterDeployments(ds: seq<Deployment>, searchQuery: string): (r: seq<Deployment>)
    ensures |r| <= |ds|
    ensures forall d :: d in r ==> d in ds
  {
    if Trim(searchQuery) == "" then ds else KeepMatching(ds, Lower(searchQuery))
  }

  /** `xs` is `ys` with some elements deleted (order and multiplicity kept). */
  predicate IsSubsequence<T(==)>(xs: seq<T>, ys: seq<T>)
    decreases |ys|
  {
    if xs == [] then true
    else if ys == [] then false
    else (xs[0] == ys[0] && IsSubsequence(xs[1..], ys[1..])) || IsSubsequence(xs, ys[1..])
  }

  lemma {:induction false} KeepMatchingIsSubsequence(ds: seq<Deployment>, q: string)
    ensures IsSubsequence(KeepMatching(ds, q), ds)
    decreases |ds|
  {
    if ds != [] {
      KeepMatchingIsSubsequence(ds[1..], q);
      var rest := KeepMatching(ds[1..], q);
      if Matches(ds[0], q) {
        assert KeepMatching(ds, q) == [ds[0]] + rest;
        assert ([ds[0]] + rest)[1..] == rest;
      }
    }
  }

  lemma {:induction false} KeepMatchingMembers(ds: seq<Deployment>, q: string)
    ensures forall d :: d in KeepMatching(ds, q) <==> d in ds && Matches(d, q)
    decreases |ds|
  {
    if ds != [] {
      KeepMatchingMembers(ds[1..], q);
      assert forall d :: d in ds <==> d == ds[0] || d in ds[1..];
    }
  }

  /** Every matching deployment is kept as many times as it occurs; no other is kept. */
  lemma {:induction false} KeepMatchingCounts(ds: seq<Deployment>, q: string)
    ensures forall d :: multiset(KeepMatching(ds, q))[d] == if Matches(d, q) then multiset(ds)[d] else 0
    decreases |ds|
  {
    if ds != [] {
      KeepMatchingCounts(ds[1..], q);
      assert ds == [ds[0]] + ds[1..];
      assert multiset(ds) == multiset{ds[0]} + multiset(ds[1..]);
    }
  }

  /** Every element of the input matches, so filtering keeps it all. */
  lemma {:induction false} KeepMatchingAllMatch(ds: seq<Deployment>, q: string)
    requires forall d :: d in ds ==> Matches(d, q)
    ensures KeepMatching(ds, q) == ds
    decreases |ds|
  {
    if ds != [] {
      assert ds[0] in ds;
      assert forall d :: d in ds[1..] ==> d in ds;
      KeepMatchingAllMatch(ds[1..], q);
      assert [ds[0]] + ds[1..] == ds;
    }
  }

  /** A blank query leaves the list as it was, in the same order. */
  lemma BlankQueryKeepsAll(ds: seq<Deployment>, searchQuery: string)
    requires AllWhitespace(searchQuery)
    ensures FilterDeployments(ds, searchQuery) == ds
  {
    TrimEmptyIffAllWhitespace(searchQuery);
  }

  /**
   * A non-blank query keeps an order-preserving subsequence of the list, and
   * keeps a deployment iff its searchable text contains the lower-cased,
   * untrimmed query.
   */
  lemma NonBlankQueryKeepsMatches(ds: seq<Deployment>, searchQuery: string)
    requires !AllWhitespace(searchQuery)
    ensures IsSubsequence(FilterDeployments(ds, searchQuery), ds)
    ensures forall d :: d in FilterDeployments(ds, searchQuery) <==>
              d in ds && Includes(SearchableText(d), Lower(searchQuery))
    ensures forall d :: multiset(FilterDeployments(ds, searchQuery))[d] ==
              if Includes(SearchableText(d), Lower(searchQuery)) then multiset(ds)[d] else 0
  {
    TrimEmptyIffAllWhitespace(searchQuery);
    KeepMatchingIsSubsequence(ds, Lower(searchQuery));
    KeepMatchingMembers(ds, Lower(searchQuery));
    KeepMatchingCounts(ds, Lower(searchQuery));
  }

  /**
   * A deployment is found by every non-blank query that occurs, up to ASCII
   * case, within the value of one of its truthy searchable fields.
   */
  lemma QueryWithinFieldFinds(ds: seq<Deployment>, d: Deployment, value: string, searchQuery: string, at: int)
    requires d in ds && value != "" && Some(value) in SearchableFields(d)
    requires OccursAt(Lower(value), Lower(searchQuery), at) && !AllWhitespace(searchQuery)
    ensures d in FilterDeployments(ds, searchQuery)
  {
    TruthyFieldIsSearchable(d, value);
    var i :| 0 <= i <= |SearchableText(d)| && OccursAt(SearchableText(d), Lower(value), i);
    OccursWithin(SearchableText(d), Lower(value), Lower(searchQuery), i, at);
    NonBlankQueryKeepsMatches(ds, searchQuery);
  }

  /** Filtering an already filtered list with the same query changes nothing. */
  lemma FilterIdempotent(ds: seq<Deployment>, searchQuery: string)
    ensures FilterDeployments(FilterDeployments(ds, searchQuery), searchQuery) == FilterDeployments(ds, searchQuery)
  {
    if Trim(searchQuery) != "" {
      var q := Lower(searchQuery);
      KeepMatchingMembers(ds, q);
      KeepMatchingAllMatch(KeepMatching(ds, q), q);
    }
  }

  /** Queries that differ only in ASCII letter case filter alike. */
  lemma FilterIgnoresQueryCase(ds: seq<Deployment>, q1: string, q2: string)
    requires Lower(q1) == Lower(q2)
    ensures FilterDeployments(ds, q1) == FilterDeployments(ds, q2)
  {
    LowerKeepsWhitespace(q1, q2);
    TrimEmptyIffAllWhitespace(q1);
    TrimEmptyIffAllWhitespace(q2);
  }

  lemma ProdOccursInProduction()
    ensures OccursAt(Lower("Production"), Lower("PROD"), 0) && !AllWhitespace("PROD")
  {
    assert Lower("Production")[0..4] == "prod" == Lower("PROD");
    assert !IsWhitespace("PROD"[0]);
  }

  /** A one-element list whose element is kept is kept whole. */
  lemma SingletonKept(ds: seq<Deployment>, searchQuery: string)
    requires |ds| == 1 && ds[0] in FilterDeployments(ds, searchQuery)
    ensures FilterDeployments(ds, searchQuery) == ds
  {
    var r := FilterDeployments(ds, searchQuery);
    assert r[0] == ds[0];
  }

  /** The query "PROD" finds a deployment named "Production". */
  lemma UpperCaseQueryFindsName(ds: seq<Deployment>)
    requires |ds| == 1 && ds[0] == Deployment("1", "k1", "Production", None, None)
    ensures FilterDeployments(ds, "PROD") == ds
  {
    ProdOccursInProduction();
    assert SearchableFields(ds[0])[2] == Some("Production");
    QueryWithinFieldFinds(ds, ds[0], "Production", "PROD", 0);
    SingletonKept(ds, "PROD");
  }
}
