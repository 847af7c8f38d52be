// Lists of patterns that match every subject.
module Coverage {
  import opened Subjects

  ghost predicate CoversAll(ps: seq<Pattern>) {
    forall s: Subject :: s != [] ==> AnyMatches(ps, s)
  }

  predicate NamesAToken(p: Pattern) {
    exists i :: 0 <= i < |p| && p[i].Is?
  }

  function LongestToken(p: Pattern): nat {
    if p == [] then 0
    else
      var last, before := p[|p| - 1], LongestToken(p[..|p| - 1]);
      if last.Is? && |last.token| > before then |last.token| else before
  }

  function LongestOf(ps: seq<Pattern>): nat {
    if ps == [] then 0
    else
      var last, before := LongestToken(ps[|ps| - 1]), LongestOf(ps[..|ps| - 1]);
      if last > before then last else before
  }

  lemma {:induction false} NoLongerToken(p: Pattern, i: nat)
    requires i < |p| && p[i].Is?
    ensures |p[i].token| <= LongestToken(p)
  {
    if i < |p| - 1 {
      NoLongerToken(p[..|p| - 1], i);
    }
  }

  lemma {:induction false} NoLongerTokenIn(ps: seq<Pattern>, p: Pattern, i: nat)
    requires p in ps && i < |p| && p[i].Is?
    ensures |p[i].token| <= LongestOf(ps)
  {
    if p == ps[|ps| - 1] {
      NoLongerToken(p, i);
    } else {
      assert ps == ps[..|ps| - 1] + [ps[|ps| - 1]];
      NoLongerTokenIn(ps[..|ps| - 1], p, i);
    }
  }

  /** A token that no pattern of the list names. */
  function FreshToken(ps: seq<Pattern>): (t: Token)
    ensures |t| == LongestOf(ps) + 1
  {
    seq(LongestOf(ps) + 1, _ => 'x')
  }

  /** A subject of fresh tokens is matched by pure wildcards only. */
  lemma FreshSubject(ps: seq<Pattern>, s: Subject, p: Pattern)
    requires p in ps && Matches(p, s) && forall i :: 0 <= i < |s| ==> s[i] == FreshToken(ps)
    ensures !NamesAToken(p)
  {
    forall i | 0 <= i < |p| ensures !p[i].Is? {
      if p[i].Is? {
        NoLongerTokenIn(ps, p, i);
      }
      assert i < |p| - 1 || !IsMulti(p) ==> Covers(p[i], s[i]);
    }
  }

  /** Pure wildcards tell subjects apart by their length only. */
  lemma WildcardsSeeLengths(p: Pattern, s: Subject, s': Subject)
    requires !NamesAToken(p) && |s| == |s'| && Matches(p, s)
    ensures Matches(p, s')
  {
  }

  /**
   * If all other patterns of a list name a token somewhere, then the list matches every subject exactly if the extra
   * ones alone do.
   */
  lemma OnlyExtrasCoverAll(all: seq<Pattern>, extras: seq<Pattern>)
    requires forall p :: p in all ==> NamesAToken(p) || p in extras
    requires forall p :: p in extras ==> p in all
    ensures CoversAll(all) <==> CoversAll(extras)
  {
    if CoversAll(all) {
      forall s: Subject | s != [] ensures AnyMatches(extras, s) {
        var strange := seq(|s|, _ => FreshToken(all));
        assert AnyMatches(all, strange);
        var p :| p in all && Matches(p, strange);
        FreshSubject(all, strange, p);
        WildcardsSeeLengths(p, strange, s);
      }
    }
    if CoversAll(extras) {
      forall s: Subject | s != [] ensures AnyMatches(all, s) {
        assert AnyMatches(extras, s);
      }
    }
  }
}
