/**
 * The best-of-N selection every selector performs: one pass over the
 * candidates in input order, skipping those a hard constraint rejects,
 * keeping a running best that only a strictly greater score replaces,
 * and returning `(None, 0)` at once for an empty list.
 */
module Selection {
  import opened PyValues

  /** What one pass of a selector's loop body does with one candidate. */
  datatype Verdict = Skip | Scored(score: real) | Crash

  /** Python's `best_score`: `-float('inf')` or a finite number. */
  datatype Score = NegInf | Fin(value: real)

  /** The winning candidate: its position in the input list and the record itself. */
  datatype Pick<T> = Pick(index: nat, item: T)

  /** A selector's result: the pair `(best, best_score)` it returns, or an exception escaping the call. */
  datatype Outcome<T> = Raised | Returned(best: Option<Pick<T>>, score: Score)

  /** `score > best_score`. */
  predicate Beats(s: real, best: Score)
  {
    best.NegInf? || s > best.value
  }

  /** Candidate k is the running best after the first n: a maximum, and the first one. */
  predicate Leads(vs: seq<Verdict>, n: nat, k: nat)
    requires n <= |vs|
  {
    && k < n
    && vs[k].Scored?
    && (forall j :: 0 <= j < n && vs[j].Scored? ==> vs[j].score <= vs[k].score)
    && (forall j :: 0 <= j < k && vs[j].Scored? ==> vs[j].score < vs[k].score)
  }

  /** The state `(best, best_score)` of the loop after its first n iterations. */
  predicate Running<T(==)>(items: seq<T>, vs: seq<Verdict>, n: nat, best: Option<Pick<T>>, bestScore: Score)
    requires |items| == |vs| && n <= |vs|
  {
    && (forall j :: 0 <= j < n ==> !vs[j].Crash?)
    && match best
       case None => bestScore == NegInf && forall j :: 0 <= j < n ==> vs[j].Skip?
       case Some(p) => Leads(vs, n, p.index) && p.item == items[p.index] && bestScore == Fin(vs[p.index].score)
  }

  /**
   * What a selector returns for candidates whose verdicts are vs: an
   * exception when some candidate raises; `(None, 0)` for no candidates;
   * `(None, -inf)` when every candidate is skipped; otherwise the first
   * candidate of maximal score, with that score.
   */
  predicate IsBestOf<T(==)>(items: seq<T>, vs: seq<Verdict>, r: Outcome<T>)
    requires |items| == |vs|
  {
    match r
    case Raised => exists j :: 0 <= j < |vs| && vs[j].Crash?
    case Returned(best, score) =>
      if |vs| == 0 then best == None && score == Fin(0.0)
      else Running(items, vs, |vs|, best, score)
  }

  /** One iteration of the loop: `if score > best_score: best_score = score; best = candidate`. */
  lemma RunningStep<T>(items: seq<T>, vs: seq<Verdict>, n: nat, best: Option<Pick<T>>, bestScore: Score)
    requires |items| == |vs| && n < |vs|
    requires Running(items, vs, n, best, bestScore) && !vs[n].Crash?
    ensures vs[n].Scored? && Beats(vs[n].score, bestScore) ==>
              Running(items, vs, n + 1, Some(Pick(n, items[n])), Fin(vs[n].score))
    ensures !(vs[n].Scored? && Beats(vs[n].score, bestScore)) ==> Running(items, vs, n + 1, best, bestScore)
  {
    if vs[n].Scored? && Beats(vs[n].score, bestScore) {
      if best.Some? {
        var k := best.value.index;
        assert forall j :: 0 <= j < n && vs[j].Scored? ==> vs[j].score <= vs[k].score < vs[n].score;
      }
    }
  }

  /** The verdicts determine the result: no two different outcomes both satisfy IsBestOf. */
  lemma IsBestOfUnique<T>(items: seq<T>, vs: seq<Verdict>, r1: Outcome<T>, r2: Outcome<T>)
    requires |items| == |vs| && IsBestOf(items, vs, r1) && IsBestOf(items, vs, r2)
    ensures r1 == r2
  {
  }

  /** A returned winner is a candidate of the input that was scored, and no candidate outscores it. */
  lemma WinnerIsScoredCandidate<T>(items: seq<T>, vs: seq<Verdict>, p: Pick<T>, s: Score)
    requires |items| == |vs| && IsBestOf(items, vs, Returned(Some(p), s))
    ensures p.index < |items| && p.item == items[p.index] && vs[p.index] == Scored(s.value)
    ensures forall j :: 0 <= j < |vs| && vs[j].Scored? ==> vs[j].score <= s.value
  {
  }
}
