/**
 * Bullet ranking and the tailoring pipeline (server/app/core/tailor.py):
 * the tokenizer, the frequency-weighted bullet score, the stable top-k
 * selection over every bullet of the profile, the region rules and the
 * fixed order of the steps of `run_tailor`.
 */
module Tailor {
  import opened Wrappers
  import opened JsonText
  import opened Models
  import opened Llm

  // ---------------------------------------------------------------------
  // Tokenizer
  // ---------------------------------------------------------------------

  /** The words that never count as tokens. */
  const Stop: set<string> := {
    "a", "an", "the", "and", "or", "for", "to", "of", "in", "on", "at", "with",
    "from", "by", "as", "is", "are", "was", "were", "be", "been", "being", "will",
    "would", "should", "could", "into", "about", "over", "under", "within", "across"
  }

  predicate IsUpper(c: char) {
    'A' <= c <= 'Z'
  }

  /** `str.lower` on one character (ASCII letters only). */
  function LowerChar(c: char): char {
    if IsUpper(c) then (c as int + 32) as char else c
  }

  function Lower(s: string): (r: string)
    ensures |r| == |s|
    ensures forall i :: 0 <= i < |s| ==> r[i] == LowerChar(s[i])
  {
    seq(|s|, i requires 0 <= i < |s| => LowerChar(s[i]))
  }

  /**
   * Lower-casing leaves no upper-case letter, turns each upper-case letter
   * into the lower-case letter of the same place in the alphabet, keeps
   * every other character, and changes nothing when applied again.
   */
  lemma LowerCase(s: string)
    ensures forall i :: 0 <= i < |s| ==> !IsUpper(Lower(s)[i])
    ensures forall i :: 0 <= i < |s| && !IsUpper(s[i]) ==> Lower(s)[i] == s[i]
    ensures forall i :: 0 <= i < |s| && IsUpper(s[i]) ==>
      'a' <= Lower(s)[i] <= 'z' && Lower(s)[i] as int - 'a' as int == s[i] as int - 'A' as int
    ensures Lower(Lower(s)) == Lower(s)
  {
  }

  /** The character class `[A-Za-z0-9+#.]` of the token pattern. */
  predicate IsTokenChar(c: char) {
    'A' <= c <= 'Z' || 'a' <= c <= 'z' || '0' <= c <= '9' || c == '+' || c == '#' || c == '.'
  }

  /** A character a returned token may hold: the class above after lowering. */
  predicate IsNormChar(c: char) {
    'a' <= c <= 'z' || '0' <= c <= '9' || c == '+' || c == '#' || c == '.'
  }

  predicate AllTokenChars(s: string) {
    forall i :: 0 <= i < |s| ==> IsTokenChar(s[i])
  }

  predicate AllNormChars(s: string) {
    forall i :: 0 <= i < |s| ==> IsNormChar(s[i])
  }

  /** Length of the run of token characters that opens `s`. */
  function LeadingRun(s: string): (n: nat)
    ensures n <= |s|
    ensures forall i :: 0 <= i < n ==> IsTokenChar(s[i])
    ensures n < |s| ==> !IsTokenChar(s[n])
  {
    if s == [] || !IsTokenChar(s[0]) then 0 else 1 + LeadingRun(s[1..])
  }

  /**
   * `re.findall` of the token pattern: the maximal runs of token
   * characters, left to right.
   */
  function Runs(s: string): (r: seq<string>)
    ensures forall t :: t in r ==> t != [] && AllTokenChars(t)
    ensures forall t :: t in r ==> forall c :: c in t ==> c in s
    decreases |s|
  {
    if s == [] then []
    else if !IsTokenChar(s[0]) then
      var r := Runs(s[1..]);
      assert forall c :: c in s[1..] ==> c in s;
      r
    else
      var n := LeadingRun(s);
      assert forall c :: c in s[..n] ==> c in s;
      assert forall c :: c in s[n..] ==> c in s;
      [s[..n]] + Runs(s[n..])
  }

  /** Every match is a contiguous piece of the text. */
  lemma {:induction false} RunsOccur(s: string)
    ensures forall t :: t in Runs(s) ==> Strings.Occurs(s, t)
    decreases |s|
  {
    if s == [] {
    } else if !IsTokenChar(s[0]) {
      RunsOccur(s[1..]);
      forall t | t in Runs(s)
        ensures Strings.Occurs(s, t)
      {
        assert t in Runs(s[1..]);
        assert Strings.Occurs(s[1..], t);
        var i: nat :| i <= |s[1..]| && Strings.OccursAt(s[1..], t, i);
        assert s[i + 1..i + 1 + |t|] == s[1..][i..i + |t|];
        assert Strings.OccursAt(s, t, i + 1);
      }
    } else {
      var n := LeadingRun(s);
      assert n > 0;
      RunsOccur(s[n..]);
      forall t | t in Runs(s)
        ensures Strings.Occurs(s, t)
      {
        if t == s[..n] {
          assert Strings.OccursAt(s, t, 0);
        } else {
          assert t in Runs(s[n..]);
          assert Strings.Occurs(s[n..], t);
          var i: nat :| i <= |s[n..]| && Strings.OccursAt(s[n..], t, i);
          assert s[i + n..i + n + |t|] == s[n..][i..i + |t|];
          assert Strings.OccursAt(s, t, i + n);
        }
      }
    }
  }

  /** A run `norm_tokens` keeps: longer than one character and not a stop word. */
  predicate Kept(t: string) {
    |t| > 1 && t !in Stop
  }

  function Keep(ts: seq<string>): (r: seq<string>)
    ensures forall t :: t in r ==> t in ts && Kept(t)
  {
    if ts == [] then []
    else (if Kept(ts[0]) then [ts[0]] else []) + Keep(ts[1..])
  }

  /** `norm_tokens`. */
  function NormTokens(text: string): seq<string> {
    Keep(Runs(Lower(text)))
  }

  /** Every token is lower-case, at least two characters long and not a stop word. */
  lemma NormTokensShape(text: string)
    ensures forall t :: t in NormTokens(text) ==> |t| >= 2 && t !in Stop && AllNormChars(t)
  {
    LoweredRuns(Lower(text));
  }

  lemma LoweredRuns(low: string)
    requires forall c :: c in low ==> !IsUpper(c)
    ensures forall t :: t in Runs(low) ==> AllNormChars(t)
  {
    forall t | t in Runs(low)
      ensures AllNormChars(t)
    {
      forall i | 0 <= i < |t|
        ensures IsNormChar(t[i])
      {
        assert t[i] in t;
      }
    }
  }

  lemma LeadingRunStops(a: string, c: char, b: string)
    requires !IsTokenChar(c)
    ensures LeadingRun(a + [c] + b) == LeadingRun(a)
    decreases |a|
  {
    if a == [] {
      assert (a + [c] + b)[0] == c;
    } else if IsTokenChar(a[0]) {
      assert (a + [c] + b)[1..] == a[1..] + [c] + b;
      LeadingRunStops(a[1..], c, b);
    }
  }

  /** A character outside the token class separates runs: the text splits around it. */
  lemma {:induction false} RunsSplit(a: string, c: char, b: string)
    requires !IsTokenChar(c)
    ensures Runs(a + [c] + b) == Runs(a) + Runs(b)
    decreases |a|
  {
    var s := a + [c] + b;
    if a == [] {
      assert s == [c] + b;
      assert s[1..] == b;
    } else if !IsTokenChar(a[0]) {
      assert s[1..] == a[1..] + [c] + b;
      RunsSplit(a[1..], c, b);
    } else {
      var n := LeadingRun(a);
      LeadingRunStops(a, c, b);
      assert s[..n] == a[..n];
      assert s[n..] == a[n..] + [c] + b;
      RunsSplit(a[n..], c, b);
    }
  }

  /** A non-empty text of token characters is a single run. */
  lemma {:induction false} RunsOfWord(w: string)
    requires w != [] && AllTokenChars(w)
    ensures Runs(w) == [w]
  {
    WholeRun(w);
    assert w[..|w|] == w;
    assert w[|w|..] == [];
  }

  lemma {:induction false} WholeRun(w: string)
    requires AllTokenChars(w)
    ensures LeadingRun(w) == |w|
    decreases |w|
  {
    if w != [] {
      WholeRun(w[1..]);
    }
  }

  lemma {:induction false} KeepAppend(xs: seq<string>, ys: seq<string>)
    ensures Keep(xs + ys) == Keep(xs) + Keep(ys)
    decreases |xs|
  {
    if xs != [] {
      assert (xs + ys)[1..] == xs[1..] + ys;
      KeepAppend(xs[1..], ys);
    } else {
      assert xs + ys == ys;
    }
  }

  /**
   * Tokens keep their order: a separator splits the text, and the tokens of
   * the whole are the tokens of the left part followed by those of the right.
   */
  lemma NormTokensSplit(a: string, c: char, b: string)
    requires !IsTokenChar(c)
    ensures NormTokens(a + [c] + b) == NormTokens(a) + NormTokens(b)
  {
    assert Lower(a + [c] + b) == Lower(a) + [c] + Lower(b);
    RunsSplit(Lower(a), c, Lower(b));
    KeepAppend(Runs(Lower(a)), Runs(Lower(b)));
  }

  /** A single word is its own lowered token exactly when it is long enough and not a stop word. */
  lemma NormTokensOfWord(w: string)
    requires w != [] && AllTokenChars(w)
    ensures NormTokens(w) == if Kept(Lower(w)) then [Lower(w)] else []
  {
    var low := Lower(w);
    assert AllTokenChars(low);
    RunsOfWord(low);
    assert Keep([low]) == (if Kept(low) then [low] else []) + Keep([]);
  }

  // ---------------------------------------------------------------------
  // Scoring
  // ---------------------------------------------------------------------

  /** `Counter(norm_tokens(jd_text))`: the number of times each token occurs in the job text. */
  function JdCounts(jdText: string): multiset<string> {
    multiset(NormTokens(jdText))
  }

  /** Sum of the counts of the tokens, repeats included. */
  function SumCounts(tokens: seq<string>, counts: multiset<string>): nat {
    if tokens == [] then 0 else counts[tokens[0]] + SumCounts(tokens[1..], counts)
  }

  /** `score_bullet`. */
  function ScoreBullet(bullet: string, counts: multiset<string>): nat {
    SumCounts(NormTokens(bullet), counts)
  }

  /** The score is zero exactly when no token of the bullet occurs in the job text. */
  lemma {:induction false} SumCountsZero(tokens: seq<string>, counts: multiset<string>)
    ensures SumCounts(tokens, counts) == 0 <==> forall t :: t in tokens ==> counts[t] == 0
  {
    if tokens != [] {
      SumCountsZero(tokens[1..], counts);
      assert forall t :: t in tokens <==> t == tokens[0] || t in tokens[1..];
    }
  }

  /** Every occurrence of a token adds its count: the score of a concatenation is the sum. */
  lemma {:induction false} SumCountsAppend(xs: seq<string>, ys: seq<string>, counts: multiset<string>)
    ensures SumCounts(xs + ys, counts) == SumCounts(xs, counts) + SumCounts(ys, counts)
  {
    if xs == [] {
      assert xs + ys == ys;
    } else {
      assert (xs + ys)[1..] == xs[1..] + ys;
      SumCountsAppend(xs[1..], ys, counts);
    }
  }

  lemma ScoreBulletZero(bullet: string, jdText: string)
    ensures ScoreBullet(bullet, JdCounts(jdText)) == 0
        <==> forall t :: t in NormTokens(bullet) ==> t !in NormTokens(jdText)
  {
    SumCountsZero(NormTokens(bullet), JdCounts(jdText));
  }

  /** Two parts of a bullet around a separator score independently. */
  lemma ScoreBulletSplit(a: string, c: char, b: string, counts: multiset<string>)
    requires !IsTokenChar(c)
    ensures ScoreBullet(a + [c] + b, counts) == ScoreBullet(a, counts) + ScoreBullet(b, counts)
  {
    NormTokensSplit(a, c, b);
    SumCountsAppend(NormTokens(a), NormTokens(b), counts);
  }

  /** A word that is a token scores the number of times it occurs in the job text. */
  lemma ScoreOfWord(w: string, counts: multiset<string>)
    requires w != [] && AllTokenChars(w) && Kept(Lower(w))
    ensures ScoreBullet(w, counts) == counts[Lower(w)]
  {
    var low := Lower(w);
    NormTokensOfWord(w);
    assert NormTokens(w) == [low];
    assert SumCounts([low], counts) == counts[low] + SumCounts([], counts);
  }

  // ---------------------------------------------------------------------
  // Ranking
  // ---------------------------------------------------------------------

  /** A pool entry of `select_topk_bullets`: a bullet, where it comes from, and its score. */
  datatype Scored = Scored(roleTitle: string, company: string, bullet: string, score: nat)

  /** A returned entry: the pool entry without its score. */
  datatype SelectedBullet = SelectedBullet(roleTitle: string, company: string, bullet: string)

  const DefaultK := 12

  /** The pool entries of one role, in bullet order. */
  function RoleItems(role: Role, counts: multiset<string>): (r: seq<Scored>)
    ensures |r| == |role.bullets|
    ensures forall i :: 0 <= i < |r| ==>
      r[i] == Scored(role.title, role.company, role.bullets[i], ScoreBullet(role.bullets[i], counts))
  {
    seq(|role.bullets|, i requires 0 <= i < |role.bullets| =>
      Scored(role.title, role.company, role.bullets[i], ScoreBullet(role.bullets[i], counts)))
  }

  /** The pool before sorting: every bullet of every role, role order then bullet order. */
  function Pool(experience: seq<Role>, counts: multiset<string>): seq<Scored> {
    if experience == [] then []
    else Pool(experience[..|experience| - 1], counts) + RoleItems(experience[|experience| - 1], counts)
  }

  function TotalBullets(experience: seq<Role>): nat {
    if experience == [] then 0
    else TotalBullets(experience[..|experience| - 1]) + |experience[|experience| - 1].bullets|
  }

  predicate NonIncreasing(s: seq<Scored>) {
    forall i, j :: 0 <= i < j < |s| ==> s[i].score >= s[j].score
  }

  /** The entries of `s` with score `v`, in their order in `s`. */
  function WithScore(s: seq<Scored>, v: nat): seq<Scored> {
    if s == [] then [] else (if s[0].score == v then [s[0]] else []) + WithScore(s[1..], v)
  }

  /** Insert `x` before the first entry that does not score more than it. */
  function Insert(x: Scored, t: seq<Scored>): (r: seq<Scored>)
    ensures multiset(r) == multiset([x] + t)
  {
    if t == [] || t[0].score <= x.score then [x] + t
    else
      assert t == [t[0]] + t[1..];
      [t[0]] + Insert(x, t[1..])
  }

  /**
   * `pool.sort(key=score, reverse=True)`: descending by score, and stable,
   * so entries of equal score keep their pool order.
   */
  function SortByScore(s: seq<Scored>): (r: seq<Scored>)
    ensures NonIncreasing(r)
    ensures multiset(r) == multiset(s)
    ensures forall v :: WithScore(r, v) == WithScore(s, v)
  {
    if s == [] then []
    else
      var rest := SortByScore(s[1..]);
      InsertSorted(s[0], rest);
      forall v
        ensures WithScore(Insert(s[0], rest), v) == WithScore(s, v)
      {
        InsertWithScore(s[0], rest, v);
        assert s == [s[0]] + s[1..];
        assert ([s[0]] + rest)[1..] == rest;
      }
      assert s == [s[0]] + s[1..];
      Insert(s[0], rest)
  }

  /** Inserting below a bound into entries below it stays below it. */
  lemma {:induction false} InsertBounded(x: Scored, t: seq<Scored>, b: nat)
    requires x.score <= b
    requires forall k :: 0 <= k < |t| ==> t[k].score <= b
    ensures forall k :: 0 <= k < |Insert(x, t)| ==> Insert(x, t)[k].score <= b
  {
    if t != [] && t[0].score > x.score {
      InsertBounded(x, t[1..], b);
      var tail := Insert(x, t[1..]);
      assert Insert(x, t) == [t[0]] + tail;
    }
  }

  lemma {:induction false} InsertSorted(x: Scored, t: seq<Scored>)
    requires NonIncreasing(t)
    ensures NonIncreasing(Insert(x, t))
  {
    if t != [] && t[0].score > x.score {
      var rest := t[1..];
      assert forall k :: 0 <= k < |rest| ==> rest[k] == t[k + 1];
      InsertSorted(x, rest);
      InsertBounded(x, rest, t[0].score);
      var tail := Insert(x, rest);
      var r := Insert(x, t);
      assert r == [t[0]] + tail;
      forall i, j | 0 <= i < j < |r|
        ensures r[i].score >= r[j].score
      {
        assert r[j] == tail[j - 1];
        if i > 0 {
          assert r[i] == tail[i - 1];
        }
      }
    }
  }

  lemma WithScoreCons(e: Scored, s: seq<Scored>, v: nat)
    ensures WithScore([e] + s, v) == (if e.score == v then [e] else []) + WithScore(s, v)
  {
    assert ([e] + s)[1..] == s;
  }

  lemma {:induction false} InsertWithScore(x: Scored, t: seq<Scored>, v: nat)
    requires NonIncreasing(t)
    ensures WithScore(Insert(x, t), v) == WithScore([x] + t, v)
  {
    if t != [] && t[0].score > x.score {
      var rest := t[1..];
      var a := if t[0].score == v then [t[0]] else [];
      var b := if x.score == v then [x] else [];
      var w := WithScore(rest, v);
      assert WithScore(Insert(x, t), v) == a + (b + w) by {
        InsertWithScore(x, rest, v);
        assert Insert(x, t) == [t[0]] + Insert(x, rest);
        WithScoreCons(t[0], Insert(x, rest), v);
        WithScoreCons(x, rest, v);
      }
      assert WithScore([x] + t, v) == b + (a + w) by {
        assert t == [t[0]] + rest;
        WithScoreCons(t[0], rest, v);
        WithScoreCons(x, t, v);
      }
      if a == [] {
        assert a + (b + w) == b + (a + w);
      } else {
        assert b == [];
        assert a + (b + w) == b + (a + w);
      }
    }
  }

  /** Python's `len(s[:k])` for a list of length `n`, negative `k` counting from the end. */
  function SliceEnd(n: nat, k: int): (m: nat)
    ensures m <= n
    ensures k >= 0 ==> m == if k < n then k else n
    ensures k < 0 ==> m == if n + k > 0 then n + k else 0
  {
    if k >= 0 then (if k < n then k else n) else (if n + k > 0 then n + k else 0)
  }

  /** The sorted pool of a profile against a job text. */
  function Ranked(experience: seq<Role>, jdText: string): seq<Scored> {
    SortByScore(Pool(experience, JdCounts(jdText)))
  }

  /** `pool[:k]` after sorting. */
  function TopKScored(experience: seq<Role>, jdText: string, k: int): seq<Scored> {
    var ranked := Ranked(experience, jdText);
    ranked[..SliceEnd(|ranked|, k)]
  }

  function Strip(s: seq<Scored>): (r: seq<SelectedBullet>)
    ensures |r| == |s|
    ensures forall i :: 0 <= i < |s| ==> r[i] == SelectedBullet(s[i].roleTitle, s[i].company, s[i].bullet)
  {
    seq(|s|, i requires 0 <= i < |s| => SelectedBullet(s[i].roleTitle, s[i].company, s[i].bullet))
  }

  lemma RoleItemsStep(role: Role, counts: multiset<string>, j: nat)
    requires j < |role.bullets|
    ensures RoleItems(role, counts)[..j + 1] == RoleItems(role, counts)[..j]
      + [Scored(role.title, role.company, role.bullets[j], ScoreBullet(role.bullets[j], counts))]
  {
    var r := RoleItems(role, counts);
    assert r[j] == Scored(role.title, role.company, role.bullets[j], ScoreBullet(role.bullets[j], counts));
    assert r[..j + 1] == r[..j] + [r[j]];
  }

  lemma PoolExtend(experience: seq<Role>, i: nat, counts: multiset<string>)
    requires i < |experience|
    ensures Pool(experience[..i + 1], counts)
         == Pool(experience[..i], counts) + RoleItems(experience[i], counts)[..|experience[i].bullets|]
  {
    assert experience[..i + 1][..i] == experience[..i];
    assert RoleItems(experience[i], counts)[..|experience[i].bullets|] == RoleItems(experience[i], counts);
  }

  /** The value of `select_topk_bullets(profile, jd_text, k)`. */
  function TopK(experience: seq<Role>, jdText: string, k: int): seq<SelectedBullet> {
    Strip(TopKScored(experience, jdText, k))
  }

  /**
   * `select_topk_bullets`: the nested loops build the pool, the pool is
   * sorted, and the first `k` entries are returned without their scores.
   */
  method SelectTopK(profile: Profile, jdText: string, k: int) returns (r: seq<SelectedBullet>)
    ensures r == TopK(profile.experience, jdText, k)
  {
    var experience := profile.experience;
    var jdCounts := JdCounts(jdText);
    var pool: seq<Scored> := [];
    var i := 0;
    while i < |experience|
      invariant 0 <= i <= |experience|
      invariant pool == Pool(experience[..i], jdCounts)
    {
      var row := experience[i];
      ghost var before := pool;
      var j := 0;
      while j < |row.bullets|
        invariant 0 <= j <= |row.bullets|
        invariant pool == before + RoleItems(row, jdCounts)[..j]
      {
        var bullet := row.bullets[j];
        RoleItemsStep(row, jdCounts, j);
        pool := pool + [Scored(row.title, row.company, bullet, ScoreBullet(bullet, jdCounts))];
        j := j + 1;
      }
      PoolExtend(experience, i, jdCounts);
      i := i + 1;
    }
    assert experience[..i] == experience;
    pool := SortByScore(pool);
    r := Strip(pool[..SliceEnd(|pool|, k)]);
  }

  // ---------------------------------------------------------------------
  // What the selection promises
  // ---------------------------------------------------------------------

  lemma {:induction false} PoolLength(experience: seq<Role>, counts: multiset<string>)
    ensures |Pool(experience, counts)| == TotalBullets(experience)
    decreases |experience|
  {
    if experience != [] {
      PoolLength(experience[..|experience| - 1], counts);
    }
  }

  /** Exactly `min(k, number of bullets)` entries for `k >= 0`; Python slicing for negative `k`. */
  lemma TopKLength(experience: seq<Role>, jdText: string, k: int)
    ensures |TopK(experience, jdText, k)| == SliceEnd(TotalBullets(experience), k)
    ensures k >= 0 ==> |TopK(experience, jdText, k)| == if k < TotalBullets(experience) then k else TotalBullets(experience)
    ensures k < 0 ==> (|TopK(experience, jdText, k)| ==
      if TotalBullets(experience) + k > 0 then TotalBullets(experience) + k else 0)
  {
    var pool := Pool(experience, JdCounts(jdText));
    PoolLength(experience, JdCounts(jdText));
    assert |multiset(SortByScore(pool))| == |multiset(pool)|;
  }

  /** The returned entries come in non-increasing score order. */
  lemma TopKOrdered(experience: seq<Role>, jdText: string, k: int)
    ensures NonIncreasing(TopKScored(experience, jdText, k))
  {
  }

  lemma PrefixNotWorse(ranked: seq<Scored>, n: nat)
    requires NonIncreasing(ranked) && n <= |ranked|
    ensures multiset(ranked[..n]) + multiset(ranked[n..]) == multiset(ranked)
    ensures forall x, y :: x in ranked[n..] && y in ranked[..n] ==> x.score <= y.score
  {
    assert ranked == ranked[..n] + ranked[n..];
    forall x, y | x in ranked[n..] && y in ranked[..n]
      ensures x.score <= y.score
    {
      var a :| 0 <= a < n && ranked[..n][a] == y;
      var b :| 0 <= b < |ranked| - n && ranked[n..][b] == x;
      assert ranked[a] == y && ranked[n + b] == x;
    }
  }

  /**
   * The sorted pool splits into the returned entries and the left-out ones,
   * and nothing left out scores more than anything returned.
   */
  lemma TopKExcludedNotBetter(experience: seq<Role>, jdText: string, k: int)
    ensures var ranked := Ranked(experience, jdText);
      var top := TopKScored(experience, jdText, k);
      var rest := ranked[|top|..];
      && multiset(top) + multiset(rest) == multiset(Pool(experience, JdCounts(jdText)))
      && forall x, y :: x in rest && y in top ==> x.score <= y.score
  {
    var ranked := Ranked(experience, jdText);
    PrefixNotWorse(ranked, SliceEnd(|ranked|, k));
  }

  /** `x` is a bullet of `role`, named after it, with the bullet's score. */
  predicate FromRole(x: Scored, role: Role, counts: multiset<string>) {
    x.roleTitle == role.title && x.company == role.company && x.bullet in role.bullets
    && x.score == ScoreBullet(x.bullet, counts)
  }

  /** Every pool entry is a bullet of one role of the profile, with that bullet's score. */
  lemma {:induction false} PoolProvenance(experience: seq<Role>, counts: multiset<string>, x: Scored)
    requires x in Pool(experience, counts)
    ensures exists i :: (0 <= i < |experience| && FromRole(x, experience[i], counts))
    decreases |experience|
  {
    var last := |experience| - 1;
    var front := experience[..last];
    if x in Pool(front, counts) {
      PoolProvenance(front, counts, x);
      var i :| 0 <= i < |front| && FromRole(x, front[i], counts);
      assert experience[i] == front[i];
    } else {
      var items := RoleItems(experience[last], counts);
      var b :| 0 <= b < |items| && items[b] == x;
      assert x.bullet == experience[last].bullets[b];
      assert FromRole(x, experience[last], counts);
    }
  }

  /**
   * Each returned `(role_title, company, bullet)` comes from one role of the
   * profile, and that role holds the bullet.
   */
  lemma TopKProvenance(experience: seq<Role>, jdText: string, k: int, b: SelectedBullet)
    requires b in TopK(experience, jdText, k)
    ensures exists i :: (0 <= i < |experience| && b.roleTitle == experience[i].title
      && b.company == experience[i].company && b.bullet in experience[i].bullets)
  {
    var top := TopKScored(experience, jdText, k);
    var ranked := Ranked(experience, jdText);
    var n :| 0 <= n < |top| && TopK(experience, jdText, k)[n] == b;
    var x := top[n];
    assert x == ranked[n];
    assert x in multiset(ranked);
    PoolProvenance(experience, JdCounts(jdText), x);
  }

  lemma {:induction false} WithScoreAppend(a: seq<Scored>, b: seq<Scored>, v: nat)
    ensures WithScore(a + b, v) == WithScore(a, v) + WithScore(b, v)
    decreases |a|
  {
    if a == [] {
      assert a + b == b;
    } else {
      var h := if a[0].score == v then [a[0]] else [];
      assert WithScore(a + b, v) == h + WithScore(a[1..] + b, v) by {
        assert a + b == [a[0]] + (a[1..] + b);
        WithScoreCons(a[0], a[1..] + b, v);
      }
      assert WithScore(a, v) == h + WithScore(a[1..], v) by {
        assert a == [a[0]] + a[1..];
        WithScoreCons(a[0], a[1..], v);
      }
      WithScoreAppend(a[1..], b, v);
    }
  }

  lemma PrefixWithScore(s: seq<Scored>, n: nat, v: nat)
    requires n <= |s|
    ensures WithScore(s[..n], v) <= WithScore(s, v)
  {
    assert s == s[..n] + s[n..];
    WithScoreAppend(s[..n], s[n..], v);
  }

  /**
   * Stability: for each score, the returned entries with that score are the
   * first ones of that score in profile order (role order, then bullet order).
   */
  lemma TopKStable(experience: seq<Role>, jdText: string, k: int, v: nat)
    ensures WithScore(TopKScored(experience, jdText, k), v) <= WithScore(Pool(experience, JdCounts(jdText)), v)
  {
    var pool := Pool(experience, JdCounts(jdText));
    var ranked := SortByScore(pool);
    PrefixWithScore(ranked, SliceEnd(|ranked|, k), v);
  }

  // ---------------------------------------------------------------------
  // Region rules
  // ---------------------------------------------------------------------

  datatype Rules = Rules(pages: nat, style: string, dateFormat: string)

  const FallbackStyle := "no photo; refs on request ok"

  /** `region_rules`: total over every string, with a fallback for unknown regions. */
  function RegionRules(region: string): (r: Rules)
    ensures r.dateFormat == "YYYY-MM"
    ensures r.pages == if region in {"US", "GL"} then 1 else 2
    ensures region !in {"US", "EU", "GL"} <==> r.style == FallbackStyle
  {
    if region == "US" then Rules(1, "no photo; concise; one-page", "YYYY-MM")
    else if region == "EU" then Rules(2, "two-page allowed; simple", "YYYY-MM")
    else if region == "GL" then Rules(1, "one-page allowed; simple", "YYYY-MM")
    else Rules(2, FallbackStyle, "YYYY-MM")
  }

  /** The rules as the dict `region_rules` returns, keys in insertion order. */
  function RulesJson(r: Rules): Json {
    JObj([("pages", JNum(r.pages)), ("style", JStr(r.style)), ("date_format", JStr(r.dateFormat))])
  }

  /** A job's region is always one of the three codes, so the fallback rule never reaches the prompt. */
  lemma JobRegionHasOwnRule(region: Region)
    ensures RegionRules(RegionCode(region)).style != FallbackStyle
  {
  }

  /** The serialized rules carry the page count, the style and the date format under their keys. */
  lemma RulesJsonFields(r: Rules)
    ensures Get(RulesJson(r).fields, "pages") == Some(JNum(r.pages))
    ensures Get(RulesJson(r).fields, "style") == Some(JStr(r.style))
    ensures Get(RulesJson(r).fields, "date_format") == Some(JStr(r.dateFormat))
  {
    var f := RulesJson(r).fields;
    GetUnique(f, 0, "pages");
    GetUnique(f, 1, "style");
    GetUnique(f, 2, "date_format");
  }

  // ---------------------------------------------------------------------
  // run_tailor
  // ---------------------------------------------------------------------

  /** `json.dumps(selected)`: one object per selected bullet, keys in insertion order. */
  function SelectedJson(selected: seq<SelectedBullet>): Json {
    JArr(seq(|selected|, i requires 0 <= i < |selected| =>
      JObj([("role_title", JStr(selected[i].roleTitle)), ("company", JStr(selected[i].company)),
            ("bullet", JStr(selected[i].bullet))])))
  }

  /**
   * What `run_tailor` relies on but does not define: the generation
   * service and its key, the schema validator (`validate_or_error`: the
   * parsed data or an error message), the grounding check
   * (`business_rules_check`: an error message or nothing), and the
   * serializers of the profile and of the response schema.
   */
  datatype TailorEnv = TailorEnv(
    apiKey: Option<string>,
    client: Client,
    validate: string -> Result<Json, string>,
    businessCheck: (Json, Profile) -> Option<string>,
    profileJson: Profile -> string,
    schemaJson: string)

  /** The prompt `run_tailor` builds for a job, with the default number of bullets. */
  function TailorPrompt(env: TailorEnv, profile: Profile, job: JobJD): string {
    BuildUserPrompt(
      env.profileJson(profile),
      job.jdText,
      RulesJson(RegionRules(RegionCode(job.region))),
      Dumps(SelectedJson(TopK(profile.experience, job.jdText, DefaultK))),
      env.schemaJson)
  }

  /**
   * The steps of `run_tailor` after the prompt is built: call the service,
   * validate the answer, check its grounding against the profile, build the
   * record. Each step runs only when the one before succeeded.
   */
  function Respond(env: TailorEnv, profile: Profile, prompt: string): (r: Result<LLMOutput, PipelineError>)
    ensures KeyMissing(env.apiKey) ==> r == Err(ConfigurationError(ApiKeyMissing))
    ensures CallLlm(env.apiKey, prompt, env.client).Err? ==> r == Err(CallLlm(env.apiKey, prompt, env.client).error)
    ensures r.Ok? <==> (
      var raw := CallLlm(env.apiKey, prompt, env.client);
      && raw.Ok?
      && env.validate(raw.value).Ok?
      && env.businessCheck(env.validate(raw.value).value, profile) == None
      && DecodeLLMOutput(env.validate(raw.value).value).Some?)
    ensures r.Ok? ==>
      var raw := CallLlm(env.apiKey, prompt, env.client);
      DecodeLLMOutput(env.validate(raw.value).value) == Some(r.value)
    ensures r.Err? && r.error.SchemaError? ==> (
      var raw := CallLlm(env.apiKey, prompt, env.client);
      && raw.Ok? && env.validate(raw.value).Err?
      && r.error.message == env.validate(raw.value).error)
    ensures r.Err? && r.error.GroundingError? ==> (
      var raw := CallLlm(env.apiKey, prompt, env.client);
      && raw.Ok? && env.validate(raw.value).Ok?
      && env.businessCheck(env.validate(raw.value).value, profile).Some?
      && r.error.message == env.businessCheck(env.validate(raw.value).value, profile).value)
    ensures r.Err? && r.error.RecordError? ==> (
      var raw := CallLlm(env.apiKey, prompt, env.client);
      && raw.Ok? && env.validate(raw.value).Ok?
      && env.businessCheck(env.validate(raw.value).value, profile) == None
      && DecodeLLMOutput(env.validate(raw.value).value) == None)
  {
    match CallLlm(env.apiKey, prompt, env.client)
    case Err(e) => Err(e)
    case Ok(raw) =>
      match env.validate(raw)
      case Err(message) => Err(SchemaError(message))
      case Ok(data) =>
        match env.businessCheck(data, profile)
        case Some(message) => Err(GroundingError(message))
        case None =>
          match DecodeLLMOutput(data)
          case None => Err(RecordError("LLMOutput validation failed"))
          case Some(output) => Ok(output)
  }

  /** `run_tailor`: select the bullets, build the prompt, then respond. */
  function RunTailor(env: TailorEnv, profile: Profile, job: JobJD): Result<LLMOutput, PipelineError> {
    Respond(env, profile, TailorPrompt(env, profile, job))
  }

  /** When validation refuses the answer, the grounding check is never consulted. */
  lemma ValidationBeforeGrounding(env: TailorEnv, other: (Json, Profile) -> Option<string>,
                                  profile: Profile, prompt: string)
    requires var raw := CallLlm(env.apiKey, prompt, env.client);
      raw.Ok? && env.validate(raw.value).Err?
    ensures Respond(env, profile, prompt) == Respond(env.(businessCheck := other), profile, prompt)
    ensures Respond(env, profile, prompt).Err? && Respond(env, profile, prompt).error.SchemaError?
  {
  }

  /** The second line of the prompt is the serialized rules of the job's region. */
  lemma TailorPromptRules(env: TailorEnv, profile: Profile, job: JobJD)
    ensures RegionRulesLine(TailorPrompt(env, profile, job)) == Dumps(RulesJson(RegionRules(RegionCode(job.region))))
  {
    PromptRegionRulesLine(env.profileJson(profile), job.jdText, RulesJson(RegionRules(RegionCode(job.region))),
      Dumps(SelectedJson(TopK(profile.experience, job.jdText, DefaultK))), env.schemaJson);
  }

  /**
   * The prompt `run_tailor` sends carries the profile's JSON, the job text,
   * the top bullets selected for that job text and the schema's JSON, each
   * verbatim under its own label.
   */
  lemma TailorPromptContents(env: TailorEnv, profile: Profile, job: JobJD)
    ensures Strings.Occurs(TailorPrompt(env, profile, job),
                           "PROFILE_MIN:\n" + env.profileJson(profile) + "\n\nJD_TEXT:\n")
    ensures Strings.Occurs(TailorPrompt(env, profile, job),
                           "JD_TEXT:\n" + job.jdText + "\n\nPRESELECTED_PROFILE_BULLETS:\n")
    ensures Strings.Occurs(TailorPrompt(env, profile, job),
                           "PRESELECTED_PROFILE_BULLETS:\n" + Dumps(SelectedJson(TopK(profile.experience, job.jdText, DefaultK)))
                           + "\n\nSCHEMA (immutable):\n")
    ensures Strings.EndsWith(TailorPrompt(env, profile, job),
                             "SCHEMA (immutable):\n" + env.schemaJson + "\n\nReturn JSON only.")
  {
    var rules := RulesJson(RegionRules(RegionCode(job.region)));
    var selected := Dumps(SelectedJson(TopK(profile.experience, job.jdText, DefaultK)));
    var pj := env.profileJson(profile);
    var r := TailorPrompt(env, profile, job);
    var s1 := |Section("REGION_RULES", Dumps(rules))|;
    var s2 := s1 + |Section("PROFILE_MIN", pj)|;
    var s3 := s2 + |Section("JD_TEXT", job.jdText)|;
    var s4 := s3 + |Section("PRESELECTED_PROFILE_BULLETS", selected)|;
    PromptProfileMin(pj, job.jdText, rules, selected, env.schemaJson);
    assert s1 <= |r|;
    PromptJdText(pj, job.jdText, rules, selected, env.schemaJson);
    assert s2 <= |r|;
    PromptSelectedBullets(pj, job.jdText, rules, selected, env.schemaJson);
    assert s3 <= |r|;
    PromptSchema(pj, job.jdText, rules, selected, env.schemaJson);
    assert r[s4..] == r[|r| - (|r| - s4)..];
  }
}
