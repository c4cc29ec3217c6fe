/** The markup fingerprinter: detects front-end frameworks, CSS frameworks and
    the CMS generator from the `<script>`, `<meta>` and `<link>` tags of a page,
    and extracts a `major.minor.patch` version from a script or stylesheet URL.

    The page is given already parsed, as the sequence of its tags in document
    order; each tag is its (lower-case) name and its attribute map. */
module DomAnalyzer {
  import opened Common
  import opened Json

  datatype Tag = Tag(name: string, attrs: map<string, string>)

  /** `soup.find_all(name)`: the tags called `name`, in document order. */
  function FindAll(doc: seq<Tag>, name: string): (found: seq<Tag>)
    ensures |found| <= |doc|
    ensures forall t :: t in found <==> t in doc && t.name == name
    decreases |doc|
  {
    if doc == [] then []
    else FindAll(Init(doc), name) + (if Last(doc).name == name then [Last(doc)] else [])
  }

  /** `tag.get(attr, default)`. */
  function AttrOr(tag: Tag, attr: string, default: string): (text: string)
  {
    GetOr(tag.attrs, attr, default)
  }

  // ---------------------------------------------------------------------------
  // Version extraction: `re.search` with one of five fixed patterns
  //   token(?:\.min)?ext(?:\?.*marker)?(\d+\.\d+\.\d+)
  // The pattern is first described as a relation (where each part of a match
  // can lie), then matched by hand. The search takes the leftmost start
  // position; there the optional `.min` is tried before the bare extension,
  // the optional query group before its absence, and the greedy `.*` makes the
  // query group pick the LAST marker (on the same line) that a version triple
  // follows. The digit runs of the triple are maximal: backtracking cannot
  // shorten them.
  // ---------------------------------------------------------------------------

  datatype Pattern = Pattern(token: string, ext: string, marker: string)

  /** Patterns whose `.min` option and bare extension never both fit at one
      place: the extension's second character is not the `m` of `.min`. */
  predicate WellFormed(pat: Pattern)
  {
    |pat.ext| >= 2 && pat.ext[1] != 'm'
  }

  /** The pattern table of `extract_version`, keyed by lower-case technology. */
  function PatternFor(technology: string): (pat: Option<Pattern>)
    ensures pat.Some? <==> technology in {"react", "angular", "vue", "bootstrap", "tailwind"}
    ensures pat.Some? ==> pat.value.token == technology && WellFormed(pat.value)
    ensures pat.Some? ==> pat.value.ext == if technology in {"bootstrap", "tailwind"} then ".css" else ".js"
    ensures pat.Some? ==> pat.value.marker == if technology in {"react", "vue"} then "version=" else "v="
  {
    if technology == "react" then Some(Pattern("react", ".js", "version="))
    else if technology == "angular" then Some(Pattern("angular", ".js", "v="))
    else if technology == "vue" then Some(Pattern("vue", ".js", "version="))
    else if technology == "bootstrap" then Some(Pattern("bootstrap", ".css", "v="))
    else if technology == "tailwind" then Some(Pattern("tailwind", ".css", "v="))
    else None
  }

  /** Every character of `s[x..y]` is a decimal digit. */
  predicate DigitsIn(s: string, x: nat, y: nat)
    decreases y - x
  {
    x <= y <= |s| && (x == y || (IsDigit(s[x]) && DigitsIn(s, x + 1, y)))
  }

  /** `DigitsIn` is the character-wise statement. */
  lemma {:induction false} DigitsInEvery(s: string, x: nat, y: nat)
    requires x <= y <= |s|
    ensures DigitsIn(s, x, y) <==> forall t :: x <= t < y ==> IsDigit(s[t])
    decreases y - x
  {
    if x < y {
      DigitsInEvery(s, x + 1, y);
    }
  }

  /** The digits of a slice `s[a..b]` are the digits of `s` shifted by `a`. */
  lemma {:induction false} DigitsInSlice(s: string, a: nat, b: nat, x: nat, y: nat)
    requires a <= b <= |s| && x <= y <= b - a
    ensures DigitsIn(s[a..b], x, y) <==> DigitsIn(s, a + x, a + y)
    decreases y - x
  {
    if x < y {
      DigitsInSlice(s, a, b, x + 1, y);
    }
  }

  /** Three non-empty runs of decimal digits separated by dots. */
  predicate IsVersion(v: string)
  {
    exists p: nat, q: nat :: 0 < p && p + 1 < q && q + 1 < |v| && v[p] == '.' && v[q] == '.'
      && DigitsIn(v, 0, p) && DigitsIn(v, p + 1, q) && DigitsIn(v, q + 1, |v|)
  }

  lemma VersionStartsWithDigit(v: string)
    ensures IsVersion(v) ==> |v| > 0 && IsDigit(v[0])
  {
  }

  lemma UnknownIsNotVersion()
    ensures !IsVersion("Unknown")
  {
    VersionStartsWithDigit("Unknown");
  }

  // The pattern as a relation.

  /** `(?:\.min)?ext` can occupy `s[j..k]`. */
  predicate ExtSpans(s: string, j: nat, k: nat, pat: Pattern)
  {
    || (StartsAt(s, j, ".min" + pat.ext) && k == j + 4 + |pat.ext|)
    || (StartsAt(s, j, pat.ext) && k == j + |pat.ext|)
  }

  /** The marker ends at `a`. */
  predicate MarkerBefore(s: string, a: nat, marker: string)
  {
    |marker| <= a && StartsAt(s, a - |marker|, marker)
  }

  /** `\?.*marker` can occupy `s[k..a]`: a `?`, a stretch without a newline
      (what `.` accepts), and the marker ending at `a`. */
  predicate QuerySpans(s: string, k: nat, a: nat, marker: string)
  {
    k + |marker| < a && MarkerBefore(s, a, marker) && s[k] == '?' && '\n' !in s[k + 1..a - |marker|]
  }

  /** `\d+\.\d+\.\d+` occupies `s[a..b]`, its last `\d+` as long as it can be. */
  predicate TripleSpans(s: string, a: nat, b: nat)
  {
    a < b <= |s| && IsVersion(s[a..b]) && (b == |s| || !IsDigit(s[b]))
  }

  /** A match of the pattern can start at `i`, its extension end at `k`, and
      it can capture `g`. */
  predicate GroupVia(s: string, i: nat, pat: Pattern, k: nat, g: (nat, nat))
  {
    && StartsAt(s, i, pat.token)
    && ExtSpans(s, i + |pat.token|, k, pat)
    && (g.0 == k || QuerySpans(s, k, g.0, pat.marker))
    && TripleSpans(s, g.0, g.1)
  }

  /** A match of the pattern can start at `i` and capture `g`. */
  ghost predicate GroupAt(s: string, i: nat, pat: Pattern, g: (nat, nat))
  {
    exists k: nat :: GroupVia(s, i, pat, k, g)
  }

  /** No match of the pattern starts at `i`. */
  ghost predicate NoMatchAt(s: string, pat: Pattern, i: nat)
  {
    forall g: (nat, nat) :: !GroupAt(s, i, pat, g)
  }

  /** No match of the pattern starts at or after `lo`. */
  ghost predicate NoMatchFrom(s: string, pat: Pattern, lo: nat)
  {
    forall j: nat :: lo <= j ==> NoMatchAt(s, pat, j)
  }

  /** The match `re.search` reports, looking from `lo`: it starts at `i`, no
      match starts in `[lo, i)`, and of the matches at `i` it is the one whose
      greedy `.*` reaches furthest, so that its group starts last. */
  ghost predicate FirstMatchFrom(s: string, pat: Pattern, lo: nat, i: nat, g: (nat, nat))
  {
    && lo <= i
    && GroupAt(s, i, pat, g)
    && (forall j: nat :: lo <= j < i ==> NoMatchAt(s, pat, j))
    && (forall h: (nat, nat) :: GroupAt(s, i, pat, h) ==> h.0 < g.0 || h == g)
  }

  ghost predicate FirstMatch(s: string, pat: Pattern, i: nat, g: (nat, nat))
  {
    FirstMatchFrom(s, pat, 0, i, g)
  }

  // The matcher.

  /** How many digits a greedy `\d+` consumes from position `i`. */
  function DigitRun(s: string, i: nat): (n: nat)
    requires i <= |s|
    ensures i + n <= |s|
    ensures DigitsIn(s, i, i + n)
    ensures i + n == |s| || !IsDigit(s[i + n])
    decreases |s| - i
  {
    if i < |s| && IsDigit(s[i]) then 1 + DigitRun(s, i + 1) else 0
  }

  /** A run of `n` digits that cannot be extended is what `DigitRun` consumes. */
  lemma {:induction false} DigitRunExact(s: string, i: nat, n: nat)
    requires DigitsIn(s, i, i + n)
    requires i + n == |s| || !IsDigit(s[i + n])
    ensures DigitRun(s, i) == n
    decreases n
  {
    if n > 0 {
      DigitRunExact(s, i + 1, n - 1);
    }
  }

  /** Digit runs `s[a..j-1]`, `s[j..k-1]` and `s[k..b]` with a dot after the
      first two form a version. */
  lemma VersionAt(s: string, a: nat, j: nat, k: nat, b: nat)
    requires a + 1 < j < k - 1 && k < b <= |s| && s[j - 1] == '.' && s[k - 1] == '.'
    requires DigitsIn(s, a, j - 1) && DigitsIn(s, j, k - 1) && DigitsIn(s, k, b)
    ensures IsVersion(s[a..b])
  {
    var v := s[a..b];
    DigitsInSlice(s, a, b, 0, j - 1 - a);
    DigitsInSlice(s, a, b, j - a, k - 1 - a);
    DigitsInSlice(s, a, b, k - a, b - a);
    assert v[j - 1 - a] == '.' && v[k - 1 - a] == '.';
  }

  /** Where a greedy `\d+\.` that starts at `i` ends, if it matches there. */
  function DottedRun(s: string, i: nat): (j: Option<nat>)
    requires i <= |s|
    ensures j.Some? ==> i + 1 < j.value <= |s| && s[j.value - 1] == '.' && DigitsIn(s, i, j.value - 1)
  {
    var a := DigitRun(s, i);
    if a == 0 || i + a == |s| || s[i + a] != '.' then None else Some(i + a + 1)
  }

  /** End of the match of `\d+\.\d+\.\d+` that starts at `i`, if there is one. */
  function TripleEnd(s: string, i: nat): (e: Option<nat>)
    requires i <= |s|
    ensures e.Some? ==> i + 4 < e.value <= |s|
  {
    match DottedRun(s, i)
    case None => None
    case Some(j) =>
      match DottedRun(s, j)
      case None => None
      case Some(k) =>
        var c := DigitRun(s, k);
        if c == 0 then None else Some(k + c)
  }

  /** What `TripleEnd` finds is a version triple whose last run is maximal. */
  lemma TripleEndSound(s: string, i: nat)
    requires i <= |s|
    ensures TripleEnd(s, i).Some? ==> TripleSpans(s, i, TripleEnd(s, i).value)
  {
    match DottedRun(s, i)
    case None =>
    case Some(j) =>
      match DottedRun(s, j)
      case None =>
      case Some(k) =>
        var c := DigitRun(s, k);
        if c != 0 {
          VersionAt(s, i, j, k, k + c);
        }
  }

  /** A run of digits that ends at a dot is what `DottedRun` consumes. */
  lemma DottedRunExact(s: string, i: nat, j: nat)
    requires i + 1 < j <= |s| && s[j - 1] == '.' && DigitsIn(s, i, j - 1)
    ensures DottedRun(s, i) == Some(j)
  {
    DigitRunExact(s, i, j - 1 - i);
  }

  /** `TripleEnd` from its two dotted runs and its last digit run. */
  lemma TripleEndOfDotted(s: string, a: nat, j: nat, k: nat, b: nat)
    requires a <= |s| && DottedRun(s, a) == Some(j) && j <= |s| && DottedRun(s, j) == Some(k) && k < b <= |s| && DigitRun(s, k) == b - k
    ensures TripleEnd(s, a) == Some(b)
  {
  }

  /** The two dots of a version `s[a..b]`, as places in `s`: the converse of
      `VersionAt`. */
  lemma VersionDots(s: string, a: nat, b: nat) returns (j: nat, k: nat)
    requires a <= b <= |s| && IsVersion(s[a..b])
    ensures a + 1 < j < k - 1 && k < b
    ensures s[j - 1] == '.' && s[k - 1] == '.'
    ensures DigitsIn(s, a, j - 1) && DigitsIn(s, j, k - 1) && DigitsIn(s, k, b)
  {
    var v := s[a..b];
    var p: nat, q: nat :| 0 < p && p + 1 < q && q + 1 < |v| && v[p] == '.' && v[q] == '.'
      && DigitsIn(v, 0, p) && DigitsIn(v, p + 1, q) && DigitsIn(v, q + 1, |v|);
    j, k := a + p + 1, a + q + 1;
    DigitsInSlice(s, a, b, 0, p);
    DigitsInSlice(s, a, b, p + 1, q);
    DigitsInSlice(s, a, b, q + 1, b - a);
  }

  /** `TripleEnd` from the dots of a version triple whose last run is maximal. */
  lemma TripleEndOfDots(s: string, a: nat, j: nat, k: nat, b: nat)
    requires a + 1 < j < k - 1 && k < b <= |s| && s[j - 1] == '.' && s[k - 1] == '.'
    requires DigitsIn(s, a, j - 1) && DigitsIn(s, j, k - 1) && DigitsIn(s, k, b)
    requires b == |s| || !IsDigit(s[b])
    ensures TripleEnd(s, a) == Some(b)
  {
    DottedRunExact(s, a, j);
    DottedRunExact(s, j, k);
    DigitRunExact(s, k, b - k);
    TripleEndOfDotted(s, a, j, k, b);
  }

  /** Every version triple at `a` whose last run is maximal is the one found. */
  lemma TripleEndComplete(s: string, a: nat, b: nat)
    requires TripleSpans(s, a, b)
    ensures TripleEnd(s, a) == Some(b)
  {
    var j, k := VersionDots(s, a, b);
    TripleEndOfDots(s, a, j, k, b);
  }

  /** `TripleEnd` finds exactly the version triples at `a` whose last run is
      maximal. */
  lemma TripleEndSpec(s: string, a: nat)
    requires a <= |s|
    ensures forall b: nat :: TripleEnd(s, a) == Some(b) <==> TripleSpans(s, a, b)
  {
    TripleEndSound(s, a);
    forall b: nat | TripleSpans(s, a, b) ensures TripleEnd(s, a) == Some(b) {
      TripleEndComplete(s, a, b);
    }
  }

  /** No version triple starts at a character that is not a digit. */
  lemma NoTripleAt(s: string, a: nat)
    requires a < |s| && !IsDigit(s[a])
    ensures forall b: nat :: !TripleSpans(s, a, b)
  {
    forall b: nat | TripleSpans(s, a, b) ensures false {
      VersionStartsWithDigit(s[a..b]);
    }
  }

  lemma MinOrBare(s: string, j: nat, pat: Pattern)
    ensures WellFormed(pat) && StartsAt(s, j, ".min" + pat.ext) ==> !StartsAt(s, j, pat.ext)
  {
    if WellFormed(pat) && StartsAt(s, j, ".min" + pat.ext) {
      assert s[j..j + 4 + |pat.ext|][1] == s[j + 1];
      NotStartsAtByChar(s, j, pat.ext, 1);
    }
  }

  /** Where `(?:\.min)?ext` ends when it starts at `j`, if it matches there. */
  function ExtEnd(s: string, j: nat, pat: Pattern): (k: Option<nat>)
    ensures k.Some? ==> j <= k.value <= |s|
  {
    if StartsAt(s, j, ".min" + pat.ext) then Some(j + 4 + |pat.ext|)
    else if StartsAt(s, j, pat.ext) then Some(j + |pat.ext|)
    else None
  }

  /** `ExtEnd` finds the only place where `(?:\.min)?ext` can end. */
  lemma ExtEndSpec(s: string, j: nat, pat: Pattern)
    requires WellFormed(pat)
    ensures forall k: nat :: ExtEnd(s, j, pat) == Some(k) <==> ExtSpans(s, j, k, pat)
  {
    MinOrBare(s, j, pat);
  }

  /** The end of the newline-free stretch from `i`: how far `.*` may reach. */
  function LineEnd(s: string, i: nat): (e: nat)
    requires i <= |s|
    ensures i <= e <= |s|
    decreases |s| - i
  {
    if i < |s| && s[i] != '\n' then LineEnd(s, i + 1) else i
  }

  /** `.*` may stop at `x` exactly when `x` is within the line. */
  lemma {:induction false} LineEndSpec(s: string, i: nat)
    requires i <= |s|
    ensures forall x: nat :: i <= x <= |s| ==> (x <= LineEnd(s, i) <==> '\n' !in s[i..x])
    decreases |s| - i
  {
    if i < |s| {
      LineEndSpec(s, i + 1);
      forall x: nat | i < x <= |s| ensures s[i..x] == [s[i]] + s[i + 1..x] {
      }
    }
  }

  /** The greedy `.*marker(\d+\.\d+\.\d+)` whose marker may start anywhere in
      `[lo, m]`: the marker positions are tried from `m` (the longest `.*`) down
      to `lo`. */
  function QueryMatch(s: string, lo: nat, m: nat, marker: string): (g: Option<(nat, nat)>)
    requires lo <= m <= |s|
    ensures g.Some? ==> lo + |marker| <= g.value.0 <= m + |marker|
    decreases m
  {
    var here := if StartsAt(s, m, marker) then TripleEnd(s, m + |marker|) else None;
    if here.Some? then Some((m + |marker|, here.value))
    else if m == lo then None
    else QueryMatch(s, lo, m - 1, marker)
  }

  /** What `QueryMatch` finds is a marker followed by a version. */
  lemma {:induction false} QueryMatchSound(s: string, lo: nat, m: nat, marker: string)
    requires lo <= m <= |s|
    ensures var g := QueryMatch(s, lo, m, marker);
      g.Some? ==> MarkerBefore(s, g.value.0, marker) && TripleSpans(s, g.value.0, g.value.1)
    decreases m
  {
    var top := m + |marker|;
    if StartsAt(s, m, marker) && TripleEnd(s, top).Some? {
      TripleEndSound(s, top);
    } else if m > lo {
      QueryMatchSound(s, lo, m - 1, marker);
    }
  }

  /** `QueryMatch` misses no marker followed by a version, and of those it
      finds the one that starts last. */
  lemma {:induction false} QueryMatchGreedy(s: string, lo: nat, m: nat, marker: string)
    requires lo <= m <= |s|
    ensures var g := QueryMatch(s, lo, m, marker);
      forall a: nat, b: nat :: lo + |marker| <= a <= m + |marker| && MarkerBefore(s, a, marker) && TripleSpans(s, a, b) ==>
        g.Some? && (a < g.value.0 || (a, b) == g.value)
    decreases m
  {
    var top := m + |marker|;
    var g := QueryMatch(s, lo, m, marker);
    if !(StartsAt(s, m, marker) && TripleEnd(s, top).Some?) && m > lo {
      QueryMatchGreedy(s, lo, m - 1, marker);
      assert g == QueryMatch(s, lo, m - 1, marker);
    }
    forall a: nat, b: nat | lo + |marker| <= a <= top && MarkerBefore(s, a, marker) && TripleSpans(s, a, b)
      ensures g.Some? && (a < g.value.0 || (a, b) == g.value)
    {
      if a == top {
        TripleEndComplete(s, top, b);
      }
    }
  }

  /** After a `?` at `k`, the query search finds a query group exactly when one
      followed by a version exists, and then the one whose group starts last. */
  lemma QueryBranch(s: string, k: nat, marker: string)
    requires k < |s| && s[k] == '?'
    ensures var q := QueryMatch(s, k + 1, LineEnd(s, k + 1), marker);
      && (q.Some? ==> QuerySpans(s, k, q.value.0, marker) && TripleSpans(s, q.value.0, q.value.1))
      && (forall a: nat, b: nat :: QuerySpans(s, k, a, marker) && TripleSpans(s, a, b) ==>
            q.Some? && (a < q.value.0 || (a, b) == q.value))
  {
    var e := LineEnd(s, k + 1);
    var q := QueryMatch(s, k + 1, e, marker);
    QueryMatchSound(s, k + 1, e, marker);
    QueryMatchGreedy(s, k + 1, e, marker);
    LineEndSpec(s, k + 1);
    if q.Some? {
      var x := q.value.0 - |marker|;
      assert k + 1 <= x <= e;
      assert '\n' !in s[k + 1..x];
    }
    forall a: nat, b: nat | QuerySpans(s, k, a, marker) && TripleSpans(s, a, b)
      ensures q.Some? && (a < q.value.0 || (a, b) == q.value)
    {
      var x := a - |marker|;
      assert '\n' !in s[k + 1..x];
      assert x <= e;
    }
  }

  /** The group that follows the extension ending at `k`: after a `?` the
      query group is required (a version cannot start at `?`), otherwise the
      version must follow at once. */
  function GroupAfter(s: string, k: nat, marker: string): (g: Option<(nat, nat)>)
    requires k <= |s|
    ensures g.Some? ==> k <= g.value.0
  {
    if k < |s| && s[k] == '?' then QueryMatch(s, k + 1, LineEnd(s, k + 1), marker)
    else
      match TripleEnd(s, k)
      case None => None
      case Some(e) => Some((k, e))
  }

  /** `GroupAfter` finds a group that can follow the extension, misses none,
      and of those it finds the one that starts last. */
  lemma GroupAfterSpec(s: string, k: nat, marker: string)
    requires k <= |s|
    ensures var g := GroupAfter(s, k, marker);
      && (g.Some? ==> (g.value.0 == k || QuerySpans(s, k, g.value.0, marker)) && TripleSpans(s, g.value.0, g.value.1))
      && (forall a: nat, b: nat :: (a == k || QuerySpans(s, k, a, marker)) && TripleSpans(s, a, b) ==>
            g.Some? && (a < g.value.0 || (a, b) == g.value))
  {
    var g := GroupAfter(s, k, marker);
    if k < |s| && s[k] == '?' {
      QueryBranch(s, k, marker);
      forall b: nat | TripleSpans(s, k, b) ensures false {
        VersionStartsWithDigit(s[k..b]);
      }
    } else {
      TripleEndSound(s, k);
      forall a: nat, b: nat | (a == k || QuerySpans(s, k, a, marker)) && TripleSpans(s, a, b)
        ensures g.Some? && (a < g.value.0 || (a, b) == g.value)
      {
        TripleEndComplete(s, k, b);
      }
    }
  }

  /** The group captured by the pattern when the match starts at `i`. */
  function MatchAt(s: string, i: nat, pat: Pattern): (g: Option<(nat, nat)>)
    requires i <= |s|
    ensures g.Some? ==> i + |pat.token| <= g.value.0
  {
    if !StartsAt(s, i, pat.token) then None
    else match ExtEnd(s, i + |pat.token|, pat)
      case None => None
      case Some(k) => GroupAfter(s, k, pat.marker)
  }

  /** `MatchAt` finds a match that starts at `i` when there is one, and of the
      matches at `i` the one whose group starts last. */
  lemma MatchAtSpec(s: string, i: nat, pat: Pattern)
    requires i <= |s| && WellFormed(pat)
    ensures MatchAt(s, i, pat).Some? ==> GroupAt(s, i, pat, MatchAt(s, i, pat).value)
    ensures forall h: (nat, nat) :: GroupAt(s, i, pat, h) ==>
      MatchAt(s, i, pat).Some? && (h.0 < MatchAt(s, i, pat).value.0 || h == MatchAt(s, i, pat).value)
  {
    var j := i + |pat.token|;
    var g := MatchAt(s, i, pat);
    ExtEndSpec(s, j, pat);
    if g.Some? {
      var k := ExtEnd(s, j, pat).value;
      GroupAfterSpec(s, k, pat.marker);
      assert GroupVia(s, i, pat, k, g.value);
    }
    forall h: (nat, nat) | GroupAt(s, i, pat, h) ensures g.Some? && (h.0 < g.value.0 || h == g.value) {
      var k: nat :| GroupVia(s, i, pat, k, h);
      assert ExtEnd(s, j, pat) == Some(k);
      GroupAfterSpec(s, k, pat.marker);
    }
  }

  /** `re.search` from position `i`: the match with the leftmost start. */
  function SearchFrom(s: string, i: nat, pat: Pattern): (g: Option<(nat, nat)>)
    requires i <= |s|
    ensures g.Some? ==> i + |pat.token| <= g.value.0
    decreases |s| - i
  {
    var here := MatchAt(s, i, pat);
    if here.Some? then here
    else if i == |s| then None
    else SearchFrom(s, i + 1, pat)
  }

  /** What the search finds is a version whose last run is maximal. */
  lemma {:induction false} SearchFromSound(s: string, i: nat, pat: Pattern)
    requires i <= |s| && WellFormed(pat)
    ensures SearchFrom(s, i, pat).Some? ==> TripleSpans(s, SearchFrom(s, i, pat).value.0, SearchFrom(s, i, pat).value.1)
    decreases |s| - i
  {
    MatchAtSpec(s, i, pat);
    if MatchAt(s, i, pat).Some? {
      var k: nat :| GroupVia(s, i, pat, k, MatchAt(s, i, pat).value);
    } else if i < |s| {
      SearchFromSound(s, i + 1, pat);
    }
  }

  /** Past a place with no match, "no match from here on" is decided one place
      further on. */
  lemma NoMatchFromStep(s: string, pat: Pattern, i: nat)
    requires NoMatchAt(s, pat, i)
    ensures NoMatchFrom(s, pat, i) <==> NoMatchFrom(s, pat, i + 1)
  {
    if NoMatchFrom(s, pat, i + 1) {
      forall j: nat | i <= j ensures NoMatchAt(s, pat, j) {
        if j > i {
          assert i + 1 <= j;
        }
      }
    }
  }

  /** A match cannot start past the end of the string. */
  lemma NoMatchPastEnd(s: string, pat: Pattern, i: nat)
    requires |s| <= i && NoMatchAt(s, pat, i)
    ensures NoMatchFrom(s, pat, i)
  {
    forall j: nat, g: (nat, nat), k: nat | i < j ensures !GroupVia(s, j, pat, k, g) {
    }
  }

  /** The search finds a group exactly when some match starts at or after `i`,
      and the group it finds is the one `re.search` reports. */
  lemma {:induction false} SearchFromFirst(s: string, i: nat, pat: Pattern)
    requires i <= |s| && WellFormed(pat)
    ensures SearchFrom(s, i, pat).None? <==> NoMatchFrom(s, pat, i)
    ensures SearchFrom(s, i, pat).Some? ==> exists p: nat :: FirstMatchFrom(s, pat, i, p, SearchFrom(s, i, pat).value)
    decreases |s| - i
  {
    MatchAtSpec(s, i, pat);
    var here := MatchAt(s, i, pat);
    if here.Some? {
      assert !NoMatchAt(s, pat, i);
      assert FirstMatchFrom(s, pat, i, i, here.value);
    } else {
      assert NoMatchAt(s, pat, i);
      if i < |s| {
        SearchFromFirst(s, i + 1, pat);
        NoMatchFromStep(s, pat, i);
        if SearchFrom(s, i + 1, pat).Some? {
          var p: nat :| FirstMatchFrom(s, pat, i + 1, p, SearchFrom(s, i + 1, pat).value);
          assert FirstMatchFrom(s, pat, i, p, SearchFrom(s, i, pat).value);
        }
      } else {
        NoMatchPastEnd(s, pat, i);
      }
    }
  }

  /** `re.search` over the whole string. */
  lemma SearchFirst(s: string, pat: Pattern)
    requires WellFormed(pat)
    ensures SearchFrom(s, 0, pat).None? <==> NoMatchFrom(s, pat, 0)
    ensures SearchFrom(s, 0, pat).Some? ==>
      && SearchFrom(s, 0, pat).value.0 < SearchFrom(s, 0, pat).value.1 <= |s|
      && IsVersion(s[SearchFrom(s, 0, pat).value.0..SearchFrom(s, 0, pat).value.1])
      && exists i: nat :: FirstMatch(s, pat, i, SearchFrom(s, 0, pat).value)
  {
    SearchFromFirst(s, 0, pat);
    if SearchFrom(s, 0, pat).Some? {
      var g := SearchFrom(s, 0, pat).value;
      var p: nat :| FirstMatchFrom(s, pat, 0, p, g);
      assert GroupAt(s, p, pat, g);
      assert TripleSpans(s, g.0, g.1);
      assert FirstMatch(s, pat, p, g);
    }
  }

  /** `extract_version(url, technology)`: the group of the match `re.search`
      reports, or "Unknown" when the technology has no pattern or the pattern
      matches nowhere in `url`. */
  function ExtractVersion(url: string, technology: string): (version: string)
    ensures PatternFor(Lower(technology)).None? ==> version == "Unknown"
    ensures version != "Unknown" ==> IsVersion(version) && Contains(url, version)
  {
    match PatternFor(Lower(technology))
    case None => "Unknown"
    case Some(pat) =>
      SearchFromSound(url, 0, pat);
      UnknownIsNotVersion();
      match SearchFrom(url, 0, pat)
      case None => "Unknown"
      case Some(g) =>
        assert StartsAt(url, g.0, url[g.0..g.1]);
        url[g.0..g.1]
  }

  /** For a technology with a pattern, the version is "Unknown" exactly when
      the pattern matches nowhere in `url`, and otherwise it is the group of
      the match `re.search` reports. */
  lemma ExtractVersionSpec(url: string, technology: string)
    requires PatternFor(Lower(technology)).Some?
    ensures var pat := PatternFor(Lower(technology)).value;
      && (ExtractVersion(url, technology) == "Unknown" <==> NoMatchFrom(url, pat, 0))
      && (ExtractVersion(url, technology) != "Unknown" ==>
            exists i: nat, g: (nat, nat) :: FirstMatch(url, pat, i, g) && g.0 <= g.1 <= |url| && ExtractVersion(url, technology) == url[g.0..g.1])
  {
    var pat := PatternFor(Lower(technology)).value;
    SearchFirst(url, pat);
    UnknownIsNotVersion();
  }

  /** No match starts before the reported one. */
  lemma FirstMatchIsLeftmost(s: string, pat: Pattern, lo: nat, i: nat, g: (nat, nat), j: nat, h: (nat, nat))
    requires FirstMatchFrom(s, pat, lo, i, g) && lo <= j && GroupAt(s, j, pat, h)
    ensures i <= j
  {
    assert j < i ==> NoMatchAt(s, pat, j);
    assert !NoMatchAt(s, pat, j);
  }

  /** Only one match is the one `re.search` reports. */
  lemma FirstMatchUnique(s: string, pat: Pattern, i: nat, g: (nat, nat), i': nat, g': (nat, nat))
    requires FirstMatch(s, pat, i, g) && FirstMatch(s, pat, i', g')
    ensures i == i' && g == g'
  {
    FirstMatchIsLeftmost(s, pat, 0, i, g, i', g');
    FirstMatchIsLeftmost(s, pat, 0, i', g', i, g);
  }

  /** The version is the group of the reported match, whichever it is. */
  lemma VersionOfMatch(url: string, technology: string, i: nat, g: (nat, nat))
    requires PatternFor(Lower(technology)).Some?
    requires FirstMatch(url, PatternFor(Lower(technology)).value, i, g)
    ensures g.0 < g.1 <= |url| && ExtractVersion(url, technology) == url[g.0..g.1]
  {
    var pat := PatternFor(Lower(technology)).value;
    SearchFirst(url, pat);
    assert GroupAt(url, i, pat, g);
    assert !NoMatchAt(url, pat, i);
    var r := SearchFrom(url, 0, pat).value;
    var i': nat :| FirstMatch(url, pat, i', r);
    FirstMatchUnique(url, pat, i, g, i', r);
  }

  // ---------------------------------------------------------------------------
  // Technology detection: three passes over scripts, metas and links.
  // ---------------------------------------------------------------------------

  const REACT := "React"
  const ANGULAR := "Angular"
  const VUE := "Vue.js"
  const CMS := "CMS"
  const BOOTSTRAP := "Bootstrap"
  const TAILWIND := "Tailwind CSS"

  const KnownKeys: set<string> := {REACT, ANGULAR, VUE, CMS, BOOTSTRAP, TAILWIND}

  /** The lower-cased URL a script or a link offers for matching (`''` when absent). */
  function ScriptSrc(script: Tag): (src: string) { Lower(AttrOr(script, "src", "")) }

  function LinkHref(link: Tag): (href: string) { Lower(AttrOr(link, "href", "")) }

  predicate IsGenerator(meta: Tag)
  {
    Lookup(meta.attrs, "name") == Some("generator")
  }

  /** One iteration of the `<script>` loop: three independent token checks. */
  function ScriptStep(techs: map<string, string>, script: Tag): (after: map<string, string>)
  {
    var src := ScriptSrc(script);
    var t1 := if Contains(src, "react") then techs[REACT := ExtractVersion(src, "react")] else techs;
    var t2 := if Contains(src, "angular") then t1[ANGULAR := ExtractVersion(src, "angular")] else t1;
    if Contains(src, "vue") then t2[VUE := ExtractVersion(src, "vue")] else t2
  }

  /** One iteration of the `<meta>` loop. */
  function MetaStep(techs: map<string, string>, meta: Tag): (after: map<string, string>)
  {
    if IsGenerator(meta) then techs[CMS := AttrOr(meta, "content", "Unknown")] else techs
  }

  /** One iteration of the `<link>` loop. */
  function LinkStep(techs: map<string, string>, link: Tag): (after: map<string, string>)
  {
    var href := LinkHref(link);
    var t1 := if Contains(href, "bootstrap") then techs[BOOTSTRAP := ExtractVersion(href, "bootstrap")] else techs;
    if Contains(href, "tailwind") then t1[TAILWIND := ExtractVersion(href, "tailwind")] else t1
  }

  datatype Pass = Scripts | Metas | Links

  function TagName(p: Pass): (name: string)
  {
    match p
    case Scripts => "script"
    case Metas => "meta"
    case Links => "link"
  }

  function Step(p: Pass, techs: map<string, string>, tag: Tag): (after: map<string, string>)
  {
    match p
    case Scripts => ScriptStep(techs, tag)
    case Metas => MetaStep(techs, tag)
    case Links => LinkStep(techs, tag)
  }

  /** The report after one pass has visited `tags` in order, starting from `techs`. */
  function Scan(p: Pass, techs: map<string, string>, tags: seq<Tag>): (after: map<string, string>)
    decreases |tags|
  {
    if tags == [] then techs else Step(p, Scan(p, techs, Init(tags)), Last(tags))
  }

  /** What `detect_technologies` returns for a page. */
  function Technologies(doc: seq<Tag>): (techs: map<string, string>)
  {
    var afterScripts := Scan(Scripts, map[], FindAll(doc, "script"));
    var afterMetas := Scan(Metas, afterScripts, FindAll(doc, "meta"));
    Scan(Links, afterMetas, FindAll(doc, "link"))
  }

  method DetectTechnologies(doc: seq<Tag>) returns (techs: map<string, string>)
    ensures techs == Technologies(doc)
    ensures techs.Keys <= KnownKeys
    ensures forall k :: Lookup(techs, k) == LastEffect(k, doc)
  {
    techs := map[];
    var scripts := FindAll(doc, "script");
    for i := 0 to |scripts|
      invariant techs == Scan(Scripts, map[], scripts[..i])
    {
      ghost var before := techs;
      var src := ScriptSrc(scripts[i]);
      if Contains(src, "react") {
        techs := techs[REACT := ExtractVersion(src, "react")];
      }
      if Contains(src, "angular") {
        techs := techs[ANGULAR := ExtractVersion(src, "angular")];
      }
      if Contains(src, "vue") {
        techs := techs[VUE := ExtractVersion(src, "vue")];
      }
      assert techs == ScriptStep(before, scripts[i]);
      ScanExtend(Scripts, map[], scripts, i);
    }
    assert scripts[..|scripts|] == scripts;
    var metas := FindAll(doc, "meta");
    ghost var afterScripts := techs;
    for i := 0 to |metas|
      invariant techs == Scan(Metas, afterScripts, metas[..i])
    {
      if Lookup(metas[i].attrs, "name") == Some("generator") {
        techs := techs[CMS := AttrOr(metas[i], "content", "Unknown")];
      }
      ScanExtend(Metas, afterScripts, metas, i);
    }
    assert metas[..|metas|] == metas;
    var links := FindAll(doc, "link");
    ghost var afterMetas := techs;
    for i := 0 to |links|
      invariant techs == Scan(Links, afterMetas, links[..i])
    {
      ghost var before := techs;
      var href := LinkHref(links[i]);
      if Contains(href, "bootstrap") {
        techs := techs[BOOTSTRAP := ExtractVersion(href, "bootstrap")];
      }
      if Contains(href, "tailwind") {
        techs := techs[TAILWIND := ExtractVersion(href, "tailwind")];
      }
      assert techs == LinkStep(before, links[i]);
      ScanExtend(Links, afterMetas, links, i);
    }
    assert links[..|links|] == links;
    TechnologiesCharacterized(doc);
  }

  lemma ScanExtend(p: Pass, techs: map<string, string>, tags: seq<Tag>, i: nat)
    requires i < |tags|
    ensures Scan(p, techs, tags[..i + 1]) == Step(p, Scan(p, techs, tags[..i]), tags[i])
  {
    assert Init(tags[..i + 1]) == tags[..i];
  }

  /** `analyze_page(url, html)`: the object `{url, technologies}`. */
  method AnalyzePage(url: string, doc: seq<Tag>) returns (analysis: Value)
    ensures analysis.Object? && analysis.fields.Keys == {"url", "technologies"}
    ensures analysis.fields["url"] == Str(url)
    ensures StrMapOf(analysis.fields["technologies"]) == Some(Technologies(doc))
  {
    var technologies := DetectTechnologies(doc);
    analysis := Object(map["url" := Str(url), "technologies" := StrObject(technologies)]);
    StrObjectRoundTrip(technologies);
  }

  // ---------------------------------------------------------------------------
  // Reference reading, key by key: a tag either sets a key to a value or leaves
  // it alone, and the key ends up with the value of the LAST tag that sets it.
  // ---------------------------------------------------------------------------

  /** The tag kind, attribute and token that a framework key is matched on. */
  datatype Rule = Rule(tagName: string, attr: string, token: string)

  function RuleFor(k: string): (rule: Option<Rule>)
  {
    if k == REACT then Some(Rule("script", "src", "react"))
    else if k == ANGULAR then Some(Rule("script", "src", "angular"))
    else if k == VUE then Some(Rule("script", "src", "vue"))
    else if k == BOOTSTRAP then Some(Rule("link", "href", "bootstrap"))
    else if k == TAILWIND then Some(Rule("link", "href", "tailwind"))
    else None
  }

  /** What a single tag would store under `k`, or None if it leaves `k` alone. */
  function Effect(k: string, tag: Tag): (effect: Option<string>)
  {
    if k == CMS then
      if tag.name == "meta" && IsGenerator(tag) then Some(AttrOr(tag, "content", "Unknown")) else None
    else match RuleFor(k)
      case None => None
      case Some(rule) =>
        var url := Lower(AttrOr(tag, rule.attr, ""));
        if tag.name == rule.tagName && Contains(url, rule.token) then Some(ExtractVersion(url, rule.token))
        else None
  }

  /** The effect of the last tag of `doc` that sets `k`. */
  function LastEffect(k: string, doc: seq<Tag>): (effect: Option<string>)
    decreases |doc|
  {
    if doc == [] then None
    else if Effect(k, Last(doc)).Some? then Effect(k, Last(doc))
    else LastEffect(k, Init(doc))
  }

  /** The pass that fills key `k`. */
  function Owner(k: string): (owner: Option<Pass>)
  {
    if k == REACT || k == ANGULAR || k == VUE then Some(Scripts)
    else if k == CMS then Some(Metas)
    else if k == BOOTSTRAP || k == TAILWIND then Some(Links)
    else None
  }

  lemma EffectNeedsOwnerTag(k: string, tag: Tag)
    ensures Effect(k, tag).Some? ==> Owner(k).Some? && tag.name == TagName(Owner(k).value)
  {
  }

  lemma StepAt(p: Pass, techs: map<string, string>, tag: Tag, k: string)
    requires tag.name == TagName(p)
    ensures Lookup(Step(p, techs, tag), k) ==
      if Owner(k) == Some(p) then OrElse(Effect(k, tag), Lookup(techs, k)) else Lookup(techs, k)
  {
  }

  lemma {:induction false} ScanAt(p: Pass, techs: map<string, string>, tags: seq<Tag>, k: string)
    requires forall i :: 0 <= i < |tags| ==> tags[i].name == TagName(p)
    ensures Lookup(Scan(p, techs, tags), k) ==
      if Owner(k) == Some(p) then OrElse(LastEffect(k, tags), Lookup(techs, k)) else Lookup(techs, k)
    decreases |tags|
  {
    if tags != [] {
      ScanAt(p, techs, Init(tags), k);
      StepAt(p, Scan(p, techs, Init(tags)), Last(tags), k);
    }
  }

  lemma {:induction false} FindAllKeepsLastEffect(k: string, doc: seq<Tag>)
    requires Owner(k).Some?
    ensures LastEffect(k, FindAll(doc, TagName(Owner(k).value))) == LastEffect(k, doc)
    decreases |doc|
  {
    if doc != [] {
      var name := TagName(Owner(k).value);
      FindAllKeepsLastEffect(k, Init(doc));
      EffectNeedsOwnerTag(k, Last(doc));
      var found := FindAll(doc, name);
      if Last(doc).name == name {
        assert Last(found) == Last(doc);
        assert Init(found) == FindAll(Init(doc), name);
      } else {
        assert found == FindAll(Init(doc), name);
      }
    }
  }

  lemma {:induction false} UnownedKeyNeverSet(k: string, doc: seq<Tag>)
    requires Owner(k).None?
    ensures LastEffect(k, doc).None?
    decreases |doc|
  {
    if doc != [] {
      UnownedKeyNeverSet(k, Init(doc));
    }
  }

  lemma FoundTagsNamed(doc: seq<Tag>, name: string)
    ensures forall i :: 0 <= i < |FindAll(doc, name)| ==> FindAll(doc, name)[i].name == name
  {
    var found := FindAll(doc, name);
    forall i | 0 <= i < |found| ensures found[i].name == name {
      assert found[i] in found;
    }
  }

  /** A pass over the tags `FindAll` gives it. */
  lemma ScanFoundAt(p: Pass, techs: map<string, string>, doc: seq<Tag>, k: string)
    ensures Lookup(Scan(p, techs, FindAll(doc, TagName(p))), k) ==
      if Owner(k) == Some(p) then OrElse(LastEffect(k, FindAll(doc, TagName(p))), Lookup(techs, k)) else Lookup(techs, k)
  {
    FoundTagsNamed(doc, TagName(p));
    ScanAt(p, techs, FindAll(doc, TagName(p)), k);
  }

  /** The report holds, under every key, the effect of the last tag that sets it. */
  lemma TechnologiesAt(doc: seq<Tag>, k: string)
    ensures Lookup(Technologies(doc), k) == LastEffect(k, doc)
  {
    var afterScripts := Scan(Scripts, map[], FindAll(doc, "script"));
    var afterMetas := Scan(Metas, afterScripts, FindAll(doc, "meta"));
    ScanFoundAt(Scripts, map[], doc, k);
    ScanFoundAt(Metas, afterScripts, doc, k);
    ScanFoundAt(Links, afterMetas, doc, k);
    if Owner(k).Some? {
      FindAllKeepsLastEffect(k, doc);
    } else {
      UnownedKeyNeverSet(k, doc);
    }
  }

  /** Output keys are display names of the six known technologies. */
  lemma TechnologiesKeys(doc: seq<Tag>)
    ensures Technologies(doc).Keys <= KnownKeys
  {
    forall k | k in Technologies(doc) ensures k in KnownKeys {
      TechnologiesAt(doc, k);
      if Owner(k).None? {
        UnownedKeyNeverSet(k, doc);
      }
    }
  }

  lemma TechnologiesCharacterized(doc: seq<Tag>)
    ensures Technologies(doc).Keys <= KnownKeys
    ensures forall k :: Lookup(Technologies(doc), k) == LastEffect(k, doc)
  {
    TechnologiesKeys(doc);
    forall k ensures Lookup(Technologies(doc), k) == LastEffect(k, doc) {
      TechnologiesAt(doc, k);
    }
  }

  lemma {:induction false} LastEffectIsLastSetter(k: string, doc: seq<Tag>, j: nat)
    requires j < |doc| && Effect(k, doc[j]).Some?
    requires forall m :: j < m < |doc| ==> Effect(k, doc[m]).None?
    ensures LastEffect(k, doc) == Effect(k, doc[j])
    decreases |doc|
  {
    if j < |doc| - 1 {
      LastEffectIsLastSetter(k, Init(doc), j);
    }
  }

  lemma {:induction false} LastEffectNone(k: string, doc: seq<Tag>)
    ensures LastEffect(k, doc).None? <==> forall j :: 0 <= j < |doc| ==> Effect(k, doc[j]).None?
    decreases |doc|
  {
    if doc != [] {
      LastEffectNone(k, Init(doc));
      assert forall j :: 0 <= j < |doc| - 1 ==> Init(doc)[j] == doc[j];
    }
  }

  /** Last write wins: the last tag in document order that sets `k` decides its value. */
  lemma LastMatchingTagWins(doc: seq<Tag>, k: string, j: nat)
    requires j < |doc| && Effect(k, doc[j]).Some?
    requires forall m :: j < m < |doc| ==> Effect(k, doc[m]).None?
    ensures k in Technologies(doc) && Technologies(doc)[k] == Effect(k, doc[j]).value
  {
    TechnologiesAt(doc, k);
    LastEffectIsLastSetter(k, doc, j);
  }

  /** A key is reported exactly when some tag sets it. */
  lemma KeyDetectedIff(doc: seq<Tag>, k: string)
    ensures k in Technologies(doc) <==> exists j :: 0 <= j < |doc| && Effect(k, doc[j]).Some?
  {
    TechnologiesAt(doc, k);
    LastEffectNone(k, doc);
  }

  /** The token checks are independent: one src may report several frameworks. */
  lemma IndependentTokenChecks(doc: seq<Tag>, j: nat)
    requires j < |doc| && doc[j].name == "script"
    requires Contains(ScriptSrc(doc[j]), "react") && Contains(ScriptSrc(doc[j]), "vue")
    ensures REACT in Technologies(doc) && VUE in Technologies(doc)
  {
    assert Effect(REACT, doc[j]).Some? && Effect(VUE, doc[j]).Some?;
    KeyDetectedIff(doc, REACT);
    KeyDetectedIff(doc, VUE);
  }

  /** A tag lacking the matched attribute sets no framework key. */
  lemma MissingAttributeMatchesNothing(tag: Tag, k: string)
    requires RuleFor(k).Some? && RuleFor(k).value.attr !in tag.attrs
    ensures Effect(k, tag).None?
  {
    assert Lower("") == "";
    EmptyContainsNothing(RuleFor(k).value.token);
  }

  // ---------------------------------------------------------------------------
  // Matcher facts used by the worked examples below.
  // ---------------------------------------------------------------------------

  lemma {:induction false} LineEndOfOneLine(s: string, i: nat)
    requires i <= |s|
    requires forall k :: i <= k < |s| ==> s[k] != '\n'
    ensures LineEnd(s, i) == |s|
    decreases |s| - i
  {
    if i < |s| {
      LineEndOfOneLine(s, i + 1);
    }
  }

  /** Positions where the marker cannot start are skipped by the greedy `.*`. */
  lemma {:induction false} QueryMatchSkips(s: string, lo: nat, m: nat, marker: string)
    requires lo <= m <= |s| && marker != []
    requires forall k :: lo < k <= m ==> k + |marker| > |s| || s[k] != marker[0]
    ensures QueryMatch(s, lo, m, marker) == QueryMatch(s, lo, lo, marker)
    decreases m
  {
    if m > lo {
      QueryMatchSkips(s, lo, m - 1, marker);
    }
  }

  /** No match can start where the token does not. */
  lemma {:induction false} SearchWithoutToken(s: string, i: nat, pat: Pattern)
    requires i <= |s| && pat.token != []
    requires forall k :: i <= k < |s| ==> s[k] != pat.token[0]
    ensures SearchFrom(s, i, pat).None?
    decreases |s| - i
  {
    if i < |s| {
      SearchWithoutToken(s, i + 1, pat);
    }
  }

  // ---------------------------------------------------------------------------
  // Worked examples.
  // ---------------------------------------------------------------------------

  const ReactUrl := "react.min.js?version=18.2.0"

  lemma ReactUrlParts()
    ensures |ReactUrl| == 27 && ReactUrl[..5] == "react" && ReactUrl[5..12] == ".min.js"
    ensures ReactUrl[12] == '?' && ReactUrl[13..21] == "version=" && ReactUrl[21..] == "18.2.0"
    ensures forall k :: 13 <= k < 27 ==> ReactUrl[k] != '\n'
    ensures forall k :: 13 < k <= 27 ==> k + 8 > 27 || ReactUrl[k] != 'v'
  {
    assert ReactUrl == "react" + ".min.js" + "?" + "version=" + "18.2.0";
  }

  lemma ReactUrlQuery()
    ensures QueryMatch(ReactUrl, 13, LineEnd(ReactUrl, 13), "version=") == Some((21, 27))
  {
    ReactUrlParts();
    assert DigitRun(ReactUrl, 21) == 2;
    assert TripleEnd(ReactUrl, 21) == Some(27);
    LineEndOfOneLine(ReactUrl, 13);
    QueryMatchSkips(ReactUrl, 13, 27, "version=");
    assert StartsAt(ReactUrl, 13, "version=");
  }

  lemma ReactUrlMatch()
    ensures MatchAt(ReactUrl, 0, Pattern("react", ".js", "version=")) == Some((21, 27))
  {
    var pat := Pattern("react", ".js", "version=");
    ReactUrlParts();
    ReactUrlQuery();
    assert StartsAt(ReactUrl, 0, pat.token);
    assert StartsAt(ReactUrl, 5, ".min" + pat.ext);
    assert ExtEnd(ReactUrl, 5, pat) == Some(12);
  }

  /** React and Vue read their version after `version=`. */
  lemma ReactVersionFromQuery()
    ensures ExtractVersion(ReactUrl, "react") == "18.2.0"
  {
    ReactUrlParts();
    ReactUrlMatch();
    PatternOfReact();
    assert SearchFrom(ReactUrl, 0, Pattern("react", ".js", "version=")) == Some((21, 27));
  }

  lemma PatternOfReact()
    ensures PatternFor(Lower("react")) == Some(Pattern("react", ".js", "version="))
  {
    assert Lower("react") == "react";
  }

  lemma PatternOfAngular()
    ensures PatternFor(Lower("angular")) == Some(Pattern("angular", ".js", "v="))
  {
    assert Lower("angular") == "angular";
  }

  const AngularUrl := "angular.min.js?v=1.8.2"

  lemma AngularUrlParts()
    ensures |AngularUrl| == 22 && AngularUrl[..7] == "angular" && AngularUrl[7..14] == ".min.js"
    ensures AngularUrl[14] == '?' && AngularUrl[15..17] == "v=" && AngularUrl[17..] == "1.8.2"
    ensures forall k :: 15 <= k < 22 ==> AngularUrl[k] != '\n'
    ensures forall k :: 15 < k <= 22 ==> k + 2 > 22 || AngularUrl[k] != 'v'
  {
    assert AngularUrl == "angular" + ".min.js" + "?" + "v=" + "1.8.2";
  }

  lemma AngularUrlQuery()
    ensures QueryMatch(AngularUrl, 15, LineEnd(AngularUrl, 15), "v=") == Some((17, 22))
  {
    AngularUrlParts();
    assert DigitRun(AngularUrl, 17) == 1;
    assert TripleEnd(AngularUrl, 17) == Some(22);
    LineEndOfOneLine(AngularUrl, 15);
    QueryMatchSkips(AngularUrl, 15, 22, "v=");
    assert StartsAt(AngularUrl, 15, "v=");
  }

  lemma AngularUrlMatch()
    ensures MatchAt(AngularUrl, 0, Pattern("angular", ".js", "v=")) == Some((17, 22))
  {
    var pat := Pattern("angular", ".js", "v=");
    AngularUrlParts();
    AngularUrlQuery();
    assert StartsAt(AngularUrl, 0, pat.token);
    assert StartsAt(AngularUrl, 7, ".min" + pat.ext);
    assert ExtEnd(AngularUrl, 7, pat) == Some(14);
  }

  /** Angular, Bootstrap and Tailwind read their version after `v=`. */
  lemma AngularVersionFromQuery()
    ensures ExtractVersion(AngularUrl, "angular") == "1.8.2"
  {
    AngularUrlParts();
    AngularUrlMatch();
    PatternOfAngular();
    assert SearchFrom(AngularUrl, 0, Pattern("angular", ".js", "v=")) == Some((17, 22));
  }

  lemma NotStartsAtByChar(s: string, k: nat, t: string, j: nat)
    requires j < |t| && k + j < |s| && s[k + j] != t[j]
    ensures !StartsAt(s, k, t)
  {
    if k + |t| <= |s| {
      assert s[k..k + |t|][j] == s[k + j];
    }
  }

  lemma {:induction false} QueryMatchNoMarker(s: string, lo: nat, m: nat, marker: string)
    requires lo <= m <= |s|
    requires forall k :: lo <= k <= m ==> !StartsAt(s, k, marker)
    ensures QueryMatch(s, lo, m, marker) == None
    decreases m
  {
    if m > lo {
      QueryMatchNoMarker(s, lo, m - 1, marker);
    }
  }

  const ReactShortMarkerUrl := "react.js?v=18.2.0"

  lemma ReactShortMarkerParts()
    ensures |ReactShortMarkerUrl| == 17 && ReactShortMarkerUrl[..5] == "react"
    ensures ReactShortMarkerUrl[5..8] == ".js" && ReactShortMarkerUrl[8] == '?' && ReactShortMarkerUrl[10] == '='
    ensures forall k :: 1 <= k < 17 ==> ReactShortMarkerUrl[k] != 'r'
  {
    assert ReactShortMarkerUrl == "react" + ".js" + "?" + "v=18.2.0";
  }

  /** React does not accept Angular's `v=` marker: no version is found. */
  lemma ReactIgnoresShortMarker()
    ensures ExtractVersion(ReactShortMarkerUrl, "react") == "Unknown"
  {
    var s := ReactShortMarkerUrl;
    var pat := Pattern("react", ".js", "version=");
    ReactShortMarkerParts();
    PatternOfReact();
    NotStartsAtByChar(s, 5, ".min" + ".js", 1);
    assert ExtEnd(s, 5, pat) == Some(8);
    var e := LineEnd(s, 9);
    forall k | 9 <= k <= e ensures !StartsAt(s, k, "version=") {
      if k == 9 {
        NotStartsAtByChar(s, 9, "version=", 1);
      }
    }
    QueryMatchNoMarker(s, 9, e, "version=");
    assert DigitRun(s, 8) == 0;
    assert MatchAt(s, 0, pat) == None;
    SearchWithoutToken(s, 1, pat);
    assert SearchFrom(s, 0, pat) == None;
  }

  const UnversionedSrc := "/js/react.js"

  lemma UnversionedSrcParts()
    ensures |UnversionedSrc| == 12 && UnversionedSrc[4..9] == "react" && UnversionedSrc[9..] == ".js"
    ensures forall k :: 0 <= k < 12 && k != 4 ==> UnversionedSrc[k] != 'r'
    ensures forall k :: 0 <= k < 12 ==> UnversionedSrc[k] != 'v'
    ensures forall k :: 0 <= k < 12 ==> UnversionedSrc[k] != 'n'
    ensures Lower(UnversionedSrc) == UnversionedSrc
  {
    assert UnversionedSrc == "/js/" + "react" + ".js";
  }

  lemma UnversionedSrcVersion()
    ensures ExtractVersion(UnversionedSrc, "react") == "Unknown"
  {
    var s := UnversionedSrc;
    var pat := Pattern("react", ".js", "version=");
    UnversionedSrcParts();
    PatternOfReact();
    NotStartsAtByChar(s, 9, ".min" + ".js", 1);
    assert ExtEnd(s, 9, pat) == Some(12);
    assert TripleEnd(s, 12) == None;
    SearchWithoutToken(s, 5, pat);
    assert SearchFrom(s, 4, pat) == None;
    NotStartsAtByChar(s, 3, "react", 0);
    NotStartsAtByChar(s, 2, "react", 0);
    NotStartsAtByChar(s, 1, "react", 0);
    NotStartsAtByChar(s, 0, "react", 0);
    assert SearchFrom(s, 0, pat) == None;
  }

  lemma UnversionedSrcTokens()
    ensures Contains(UnversionedSrc, "react")
    ensures !Contains(UnversionedSrc, "angular") && !Contains(UnversionedSrc, "vue")
  {
    var s := UnversionedSrc;
    UnversionedSrcParts();
    assert StartsAt(s, 4, "react");
    forall k | 0 <= k <= |s| - 7 ensures !StartsAt(s, k, "angular") {
      NotStartsAtByChar(s, k, "angular", 1);
    }
    forall k | 0 <= k <= |s| - 3 ensures !StartsAt(s, k, "vue") {
      NotStartsAtByChar(s, k, "vue", 0);
    }
  }

  lemma UnversionedTagEffects(tag: Tag, k: string)
    requires tag == Tag("script", map["src" := UnversionedSrc])
    ensures Effect(k, tag) == if k == REACT then Some("Unknown") else None
  {
    UnversionedSrcParts();
    assert AttrOr(tag, "src", "") == UnversionedSrc;
    if k == REACT {
      UnversionedSrcVersion();
      UnversionedSrcTokens();
    } else if k == ANGULAR || k == VUE {
      UnversionedSrcTokens();
    }
  }

  /** A matched script without a numeric version still reports its key, as "Unknown". */
  lemma UnversionedScriptReportsUnknown(doc: seq<Tag>)
    requires doc == [Tag("script", map["src" := UnversionedSrc])]
    ensures Technologies(doc) == map[REACT := "Unknown"]
  {
    forall k ensures Lookup(Technologies(doc), k) == Lookup(map[REACT := "Unknown"], k) {
      TechnologiesAt(doc, k);
      UnversionedTagEffects(doc[0], k);
      assert Init(doc) == [];
    }
    MapsEqualByLookup(Technologies(doc), map[REACT := "Unknown"]);
  }

  lemma MapsEqualByLookup(a: map<string, string>, b: map<string, string>)
    requires forall k :: Lookup(a, k) == Lookup(b, k)
    ensures a == b
  {
    assert a.Keys == b.Keys by {
      forall k ensures k in a <==> k in b {
        assert Lookup(a, k).Some? <==> Lookup(b, k).Some?;
      }
    }
    forall k | k in a ensures a[k] == b[k] {
      assert Lookup(a, k) == Lookup(b, k);
    }
  }

  /** With two generator metas only the last content is reported. */
  lemma LastGeneratorWins(first: Tag, second: Tag)
    requires first.name == "meta" && second.name == "meta" && IsGenerator(first) && IsGenerator(second)
    ensures CMS in Technologies([first, second])
    ensures Technologies([first, second])[CMS] == AttrOr(second, "content", "Unknown")
  {
    LastMatchingTagWins([first, second], CMS, 1);
  }

  /** An absent content reads "Unknown"; an empty one is kept as the empty string. */
  lemma GeneratorContentDefault(meta: Tag)
    requires meta.name == "meta" && IsGenerator(meta)
    ensures Technologies([meta])[CMS] == if "content" in meta.attrs then meta.attrs["content"] else "Unknown"
  {
    LastMatchingTagWins([meta], CMS, 0);
  }
}
