/** How the run of a transfer service grows, and what an attempt may add to it. */
module SagaRuns {
  import opened Base
  import opened SagaProtocol

  /** `run` grew from `before`; without leave to start, no new step begins a saga or confirms a payment. */
  ghost predicate Grows(before: Run, run: Run, mayStart: bool) {
    && before <= run
    && forall k :: |before| <= k < |run| ==> mayStart || (!run[k].0.Confirm? && !run[k].0.Begin?)
  }

  lemma PathExtends(w: World, run: Run, l: Label, w': World)
    requires Path(w, run) && Does(End(w, run), l, w')
    ensures Path(w, run + [(l, w')]) && End(w, run + [(l, w')]) == w'
  {
    var longer := run + [(l, w')];
    assert longer[..|longer| - 1] == run;
  }

  lemma GrowsOn(a: Run, b: Run, c: Run, mayStart: bool)
    requires (Grows(a, b, mayStart) || Grows(a, b, false)) && (Grows(b, c, mayStart) || Grows(b, c, false))
    ensures Grows(a, c, mayStart)
  {
    forall k | |a| <= k < |c|
      ensures mayStart || (!c[k].0.Confirm? && !c[k].0.Begin?)
    {
      if k < |b| {
        assert c[k] == b[k];
      }
    }
  }

  lemma GrowsReflexive(a: Run)
    ensures Grows(a, a, false)
  {
  }

  // ---------------------------------------------------------------- confirmations

  /** The world before step `j` of a run from the empty store. */
  ghost function WorldAt(run: Run, j: nat): World
    requires j <= |run|
  {
    End(NOTHING, run[..j])
  }

  /** `run` grew from `before` and confirms nothing new. */
  ghost predicate Quiet(before: Run, run: Run) {
    before <= run && forall k :: |before| <= k < |run| ==> !run[k].0.Confirm?
  }

  /** The step asks for quote `q` to be paid. */
  ghost predicate Confirms(step: (Label, World), q: Id) {
    step.0.Confirm? && step.1.confirms != [] && step.1.confirms[|step.1.confirms| - 1].quote == q
  }

  /** The mint answered that the quote is paid. */
  ghost predicate AnsweredPaid(step: (Label, World), q: Id) {
    q in step.1.melts && step.1.melts[q].state == MeltPaid
  }

  /** `run` grew from `before` with at most one confirmation, of `q`, answered as paid if `paid`. */
  ghost predicate OneConfirm(before: Run, run: Run, q: Id, paid: bool) {
    && before <= run
    && (forall k :: |before| <= k < |run| && run[k].0.Confirm? ==>
          Confirms(run[k], q) && (paid ==> AnsweredPaid(run[k], q)))
    && (forall j, k :: |before| <= j < k < |run| && run[j].0.Confirm? ==> !run[k].0.Confirm?)
  }

  ghost predicate ReadUnpaid(w: World, q: Id) { q in w.melts && w.melts[q].state == MeltUnpaid }

  ghost predicate Unlisted(w: World, q: Id) { q !in w.payments }

  /** Quote `q` is read as unpaid before step `i`, not listed as paid before step `j`, and confirmed only after. */
  ghost predicate CarefulAt(before: Run, run: Run, q: Id, i: nat, j: nat, paid: bool) {
    && |before| <= i <= j <= |run| && ReadUnpaid(WorldAt(run, i), q) && Unlisted(WorldAt(run, j), q)
    && Quiet(before, run[..j]) && OneConfirm(run[..j], run, q, paid)
  }

  /**
   * `run` grew from `before` with at most one confirmation: of a quote that was read as unpaid within this
   * growth, and after that not found among the transactions; answered as paid if `paid`.
   */
  ghost predicate Careful(before: Run, run: Run, paid: bool) {
    Quiet(before, run) || exists q: Id, i: nat, j: nat :: CarefulAt(before, run, q, i, j, paid)
  }

  lemma GrowsQuietly(a: Run, b: Run)
    requires Grows(a, b, false)
    ensures Quiet(a, b)
  {
  }

  lemma QuietOn(a: Run, b: Run, c: Run)
    requires Quiet(a, b) && Quiet(b, c)
    ensures Quiet(a, c)
  {
    forall k | |a| <= k < |c|
      ensures !c[k].0.Confirm?
    {
      if k < |b| {
        assert c[k] == b[k];
      }
    }
  }

  lemma OneConfirmOn(a: Run, b: Run, c: Run, q: Id, paid: bool)
    requires (OneConfirm(a, b, q, paid) && Quiet(b, c)) || (Quiet(a, b) && OneConfirm(b, c, q, paid))
    ensures OneConfirm(a, c, q, paid)
  {
    assert forall k :: 0 <= k < |b| ==> c[k] == b[k];
  }

  lemma CarefulStays(a: Run, b: Run, c: Run, paid: bool)
    requires Careful(a, b, paid) && Quiet(b, c)
    ensures Careful(a, c, paid)
  {
    hide OneConfirm, ReadUnpaid, Unlisted;
    if Quiet(a, b) {
      QuietOn(a, b, c);
    } else {
      var q: Id, i: nat, j: nat :| CarefulAt(a, b, q, i, j, paid);
      assert b[..j] == c[..j] && b[..i] == c[..i];
      OneConfirmOn(b[..j], b, c, q, paid);
      assert CarefulAt(a, c, q, i, j, paid);
    }
  }

  lemma CarefulEarlier(a: Run, b: Run, c: Run, paid: bool)
    requires Quiet(a, b) && Careful(b, c, paid)
    ensures Careful(a, c, paid)
  {
    hide OneConfirm, ReadUnpaid, Unlisted;
    if Quiet(b, c) {
      QuietOn(a, b, c);
    } else {
      var q: Id, i: nat, j: nat :| CarefulAt(b, c, q, i, j, paid);
      QuietOn(a, b, c[..j]);
      assert CarefulAt(a, c, q, i, j, paid);
    }
  }

  lemma CarefulAnyway(a: Run, b: Run, paid: bool)
    requires Careful(a, b, paid)
    ensures Careful(a, b, false)
  {
    if !Quiet(a, b) {
      var q: Id, i: nat, j: nat :| CarefulAt(a, b, q, i, j, paid);
      assert CarefulAt(a, b, q, i, j, false);
    }
  }

  lemma QuietIsCareful(a: Run, b: Run)
    requires Quiet(a, b)
    ensures Careful(a, b, true) && Careful(a, b, false)
  {
  }

  /** A phase that neither begins nor confirms is as careful as can be. */
  lemma QuietGrowth(a: Run, b: Run, mayStart: bool)
    requires Grows(a, b, false)
    ensures Grows(a, b, mayStart) && Quiet(a, b) && Careful(a, b, true) && Careful(a, b, false)
  {
  }

  /** Such a phase after a careful one. */
  lemma CarefulGrowth(a: Run, b: Run, c: Run, mayStart: bool, paid: bool)
    requires Grows(a, b, mayStart) && Careful(a, b, paid) && Grows(b, c, false)
    ensures Grows(a, c, mayStart) && Careful(a, c, paid) && Careful(a, c, false)
    ensures Quiet(a, b) ==> Quiet(a, c)
  {
    GrowsOn(a, b, c, mayStart);
    GrowsQuietly(b, c);
    hide Grows, Careful, Quiet;
    CarefulStays(a, b, c, paid);
    CarefulAnyway(a, c, paid);
    if Quiet(a, b) {
      QuietOn(a, b, c);
    }
  }

  lemma NoLongerQuiet(a: Run, b: Run, c: Run, d: Run)
    requires a == b || Grows(a, b, false)
    requires !Quiet(b, c) && (Grows(b, c, true) || Grows(b, c, false))
    requires c == d || Grows(c, d, false)
    ensures !Quiet(a, d)
  {
    var k :| |b| <= k < |c| && c[k].0.Confirm?;
    assert d[k] == c[k];
  }

  lemma StillQuiet(a: Run, b: Run, q: Id)
    requires Grows(a, b, false)
    ensures Grows(a, b, true) && OneConfirm(a, b, q, true) && OneConfirm(a, b, q, false)
  {
  }

  lemma ConfirmedOnce(a: Run, b: Run, c: Run, q: Id, paid: bool)
    requires Grows(a, b, false) && Grows(b, c, true) && OneConfirm(b, c, q, paid)
    ensures Grows(a, c, true) && OneConfirm(a, c, q, paid) && OneConfirm(a, c, q, false)
  {
    GrowsOn(a, b, c, true);
    GrowsQuietly(a, b);
    OneConfirmOn(a, b, c, q, paid);
  }

  lemma ConfirmedStays(a: Run, b: Run, c: Run, q: Id)
    requires Grows(a, b, true) && OneConfirm(a, b, q, true) && Grows(b, c, false)
    ensures Grows(a, c, true) && OneConfirm(a, c, q, true) && OneConfirm(a, c, q, false)
  {
    GrowsOn(a, b, c, true);
    GrowsQuietly(b, c);
    OneConfirmOn(a, b, c, q, true);
  }

  /** A quote read as unpaid in `v`, then unlisted in `w`, then confirmed at most once. */
  lemma NowCareful(a: Run, b: Run, c: Run, v: World, w: World, q: Id, paid: bool)
    requires Grows(a, b, false) && v == End(NOTHING, a) && w == End(NOTHING, b) && OneConfirm(b, c, q, paid)
    requires ReadUnpaid(v, q) && Unlisted(w, q)
    ensures Careful(a, c, paid)
  {
    GrowsQuietly(a, b);
    assert c[..|a|] == a && c[..|b|] == b;
    hide OneConfirm, Quiet, Grows;
    assert CarefulAt(a, c, q, |a|, |b|, paid);
  }
}
