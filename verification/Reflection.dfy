/** The field matcher of tools/validate_reflection.py.

    `Reflection` is the record that collects what one FC_REFLECT macro and its `@ignore` / `@swap`
    comments declare; `Reflection.Match` is the two-index walk over the class fields and the
    reflected fields. `Accepts` is a walk-free description of what the walk accepts. */
module Reflections {

  ghost predicate NoDup<T>(s: seq<T>) {
    forall i, j :: 0 <= i < j < |s| ==> s[i] != s[j]
  }

  /** Python's `list.remove`: drops the first occurrence. */
  function Remove<T(==, !new)>(s: seq<T>, x: T): (r: seq<T>)
    requires x in s
    ensures |r| == |s| - 1
    ensures forall y :: y != x ==> (y in r <==> y in s)
  {
    assert s == [s[0]] + s[1..];
    if s[0] == x then s[1..] else [s[0]] + Remove(s[1..], x)
  }

  lemma {:induction false} RemoveNoDup<T(!new)>(s: seq<T>, x: T)
    requires x in s && NoDup(s)
    ensures NoDup(Remove(s, x)) && x !in Remove(s, x)
  {
    assert s == [s[0]] + s[1..];
    if s[0] != x {
      RemoveNoDup(s[1..], x);
      assert s[0] !in s[1..];
      assert s[0] !in Remove(s[1..], x);
    }
  }

  /** The elements of `s` that are not in `drop`, in order. */
  function Without<T(==, !new)>(s: seq<T>, drop: seq<T>): (r: seq<T>)
  {
    if s == [] then []
    else
      var n := |s| - 1;
      Without(s[..n], drop) + (if s[n] in drop then [] else [s[n]])
  }

  lemma {:induction false} WithoutMembers<T(!new)>(s: seq<T>, drop: seq<T>)
    ensures forall x :: x in Without(s, drop) <==> x in s && x !in drop
  {
    if s != [] {
      WithoutMembers(s[..|s| - 1], drop);
      assert s == s[..|s| - 1] + [s[|s| - 1]];
    }
  }

  lemma WithoutStep<T(!new)>(s: seq<T>, drop: seq<T>, i: nat)
    requires i < |s|
    ensures Without(s[..i + 1], drop) == Without(s[..i], drop) + (if s[i] in drop then [] else [s[i]])
  {
    assert s[..i + 1][..i] == s[..i];
  }

  lemma {:induction false} WithoutPrefix<T(!new)>(s: seq<T>, drop: seq<T>, i: nat)
    requires i <= |s|
    ensures Without(s[..i], drop) <= Without(s, drop)
    decreases |s| - i
  {
    if i < |s| {
      WithoutStep(s, drop, i);
      WithoutPrefix(s, drop, i + 1);
    } else {
      assert s[..i] == s;
    }
  }

  /** A kept element sits right after everything kept before it. */
  lemma WithoutAt<T(!new)>(s: seq<T>, drop: seq<T>, i: nat)
    requires i < |s| && s[i] !in drop
    ensures var before := |Without(s[..i], drop)|;
            before < |Without(s, drop)| && Without(s, drop)[before] == s[i]
  {
    WithoutStep(s, drop, i);
    WithoutPrefix(s, drop, i + 1);
  }

  lemma {:induction false} WithoutNoDup<T(!new)>(s: seq<T>, drop: seq<T>)
    requires NoDup(s)
    ensures NoDup(Without(s, drop))
  {
    if s != [] {
      WithoutNoDup(s[..|s| - 1], drop);
      WithoutMembers(s[..|s| - 1], drop);
    }
  }

  /** What a walk is about: the class fields, the reflected fields, and the declared exceptions. */
  datatype Problem<T(==, !new)> = Problem(cls: seq<T>, refl: seq<T>, swapped: seq<T>, ignored: seq<T>) {
    function Exceptions(): seq<T> { swapped + ignored }

    /** The two field lists and the two declared lists are duplicate-free. */
    ghost predicate Distinct() {
      NoDup(cls) && NoDup(refl) && NoDup(swapped) && NoDup(ignored)
    }

    /** The swapped field at `cls[p]` and `refl[q]` is "in the correct order": in the class only swapped
        fields that the reflection mentions later (from `g` on) stand between it and the place where,
        in the reflection, it directly follows the same ordinary field (or the very beginning). */
    ghost predicate LinedUp(g: nat, p: nat, q: nat) {
      && g <= p < |cls| && q < |refl|
      && cls[p] == refl[q] && cls[p] in swapped
      && (forall j :: g <= j < p ==> cls[j] in swapped && cls[j] !in refl[..q])
      && if g == 0 || q == 0 then g == q == 0
         else cls[g - 1] == refl[q - 1] && cls[g - 1] !in Exceptions()
    }

    /** Swapped fields are in both lists, ignored ones in the class alone. */
    ghost predicate Located() {
      && (forall x :: x in swapped ==> x in cls && x in refl)
      && (forall x :: x in ignored ==> x in cls && x !in refl)
    }

    /** Apart from the exceptions the two lists are the same, in the same order. */
    ghost predicate SameRest() { Without(cls, Exceptions()) == Without(refl, Exceptions()) }

    ghost predicate NoneLinedUp() { forall g: nat, p: nat, q: nat :: !LinedUp(g, p, q) }

    /** What the walk accepts, said without the walk. */
    ghost predicate Accepts() { Located() && SameRest() && NoneLinedUp() }
  }

  // ---------------------------------------------------------------------------------------------
  // The walk's state and its invariant

  /** The loop's variables: the two indices, the two declared lists as consumed so far, the swaps seen
      on one side only, and (for the proof) the index in the class just after the last matched field. */
  datatype Walk<T(==, !new)> = Walk(f: nat, rf: nat, swapped: seq<T>, ignored: seq<T>,
                       back: seq<T>, fwd: seq<T>, seen: seq<T>, gap: nat)

  ghost predicate InBounds<T(!new)>(p: Problem<T>, w: Walk<T>) {
    w.f <= |p.cls| && w.rf <= |p.refl|
  }

  ghost predicate Lists<T(!new)>(p: Problem<T>, w: Walk<T>)
    requires InBounds(p, w)
  {
    && NoDup(w.swapped) && NoDup(w.back) && NoDup(w.fwd) && NoDup(w.ignored)
    && (forall x :: x in w.swapped <==> x in p.swapped && x !in p.cls[..w.f] && x !in p.refl[..w.rf])
    && (forall x :: x in w.back <==> x in p.swapped && x in p.cls[..w.f] && x !in p.refl[..w.rf])
    && (forall x :: x in w.fwd ==> x in p.swapped && x in p.refl[..w.rf] && (x !in p.cls[..w.f] || x in p.ignored))
    && (forall x :: x in p.swapped && x in p.refl[..w.rf] && x !in p.cls[..w.f] ==> x in w.fwd)
    && (forall x :: x in w.ignored ==> x in p.ignored && (x !in p.cls[..w.f] || x in p.swapped))
    && (forall x :: x in p.ignored && x !in p.cls[..w.f] ==> x in w.ignored)
    && (forall x :: x in p.ignored && x in p.swapped ==> x in w.ignored || x in w.fwd)
    && (forall x :: x in w.seen ==> x in p.ignored)
    && (forall x :: x in p.refl[..w.rf] && x in p.ignored ==> x in p.swapped)
  }

  ghost predicate Matched<T(!new)>(p: Problem<T>, w: Walk<T>)
    requires InBounds(p, w)
  {
    Without(p.cls[..w.f], p.Exceptions()) == Without(p.refl[..w.rf], p.Exceptions())
  }

  /** Since the last matched field only swapped class fields were passed, and no reflected one. */
  ghost predicate Clean<T(!new)>(p: Problem<T>, w: Walk<T>)
    requires InBounds(p, w)
  {
    && w.gap <= w.f
    && (forall j :: w.gap <= j < w.f ==> p.cls[j] in p.swapped && p.cls[j] !in p.refl[..w.rf])
    && if w.gap == 0 || w.rf == 0 then w.gap == w.rf == 0
       else p.cls[w.gap - 1] == p.refl[w.rf - 1] && p.cls[w.gap - 1] !in p.Exceptions()
  }

  /** A still undecided swap under the reflection index is reached cleanly or about to be consumed. */
  ghost predicate Guarded<T(!new)>(p: Problem<T>, w: Walk<T>)
    requires InBounds(p, w)
  {
    w.f < |p.cls| && w.rf < |p.refl| && p.refl[w.rf] in w.swapped ==>
      Clean(p, w) || p.cls[w.f] !in w.swapped
  }

  /** No lined-up swap has been passed, and one whose run has begun is met head on. */
  ghost predicate Unpassed<T(!new)>(p: Problem<T>, w: Walk<T>) {
    forall g: nat, k: nat, q: nat :: p.LinedUp(g, k, q) ==> w.f < g || (w.f <= k && w.rf == q)
  }

  ghost predicate Inv<T(!new)>(p: Problem<T>, w: Walk<T>) {
    InBounds(p, w) && Lists(p, w) && Matched(p, w) && Guarded(p, w) && Unpassed(p, w)
  }

  // ---------------------------------------------------------------------------------------------
  // Every branch keeps the invariant

  lemma Extend<T(!new)>(s: seq<T>, i: nat)
    requires i < |s|
    ensures s[..i + 1] == s[..i] + [s[i]]
    ensures NoDup(s) ==> s[i] !in s[..i]
  {
  }

  lemma StartInv<T(!new)>(p: Problem<T>)
    requires p.Distinct()
    ensures Inv(p, Walk(0, 0, p.swapped, p.ignored, [], [], [], 0))
  {
  }

  lemma BackLists<T(!new)>(p: Problem<T>, w: Walk<T>)
    requires p.Distinct() && InBounds(p, w) && Lists(p, w) && w.f < |p.cls| && p.cls[w.f] in w.swapped
    ensures var c := p.cls[w.f];
            Lists(p, w.(f := w.f + 1, swapped := Remove(w.swapped, c), back := w.back + [c]))
  {
    RemoveNoDup(w.swapped, p.cls[w.f]);
    Extend(p.cls, w.f);
  }

  /** Passing an undecided swap on the class side stays in front of every lined-up swap. */
  lemma BackUnpassed<T(!new)>(p: Problem<T>, w: Walk<T>)
    requires InBounds(p, w) && Unpassed(p, w) && w.f < |p.cls| && p.cls[w.f] in p.swapped
    requires w.rf < |p.refl| ==> p.refl[w.rf] != p.cls[w.f]
    ensures Unpassed(p, w.(f := w.f + 1))
  {
    forall g: nat, k: nat, q: nat | p.LinedUp(g, k, q)
      ensures w.f + 1 < g || (w.f + 1 <= k && w.rf == q)
    {
    }
  }

  lemma BackGuarded<T(!new)>(p: Problem<T>, w: Walk<T>)
    requires InBounds(p, w) && Guarded(p, w) && w.f < |p.cls| && p.cls[w.f] in w.swapped
    requires p.cls[w.f] in p.swapped && p.cls[w.f] !in p.refl[..w.rf]
    ensures var c := p.cls[w.f];
            Guarded(p, w.(f := w.f + 1, swapped := Remove(w.swapped, c), back := w.back + [c]))
  {
    var v := w.(f := w.f + 1);
    if w.rf < |p.refl| && p.refl[w.rf] in w.swapped {
      assert Clean(p, w);
      assert Clean(p, v);
    }
  }

  lemma BackStep<T(!new)>(p: Problem<T>, w: Walk<T>)
    requires p.Distinct() && Inv(p, w) && w.f < |p.cls| && p.cls[w.f] in w.swapped
    requires w.rf < |p.refl| ==> p.refl[w.rf] != p.cls[w.f]
    ensures var c := p.cls[w.f];
            Inv(p, w.(f := w.f + 1, swapped := Remove(w.swapped, c), back := w.back + [c]))
  {
    BackLists(p, w);
    BackUnpassed(p, w);
    BackGuarded(p, w);
    WithoutStep(p.cls, p.Exceptions(), w.f);
  }

  lemma ForwardStep<T(!new)>(p: Problem<T>, w: Walk<T>)
    requires p.Distinct() && Inv(p, w) && w.f < |p.cls| && w.rf < |p.refl|
    requires p.cls[w.f] !in w.swapped && p.refl[w.rf] in w.swapped
    ensures var r := p.refl[w.rf];
            Inv(p, w.(rf := w.rf + 1, swapped := Remove(w.swapped, r), fwd := w.fwd + [r]))
  {
    var r := p.refl[w.rf];
    var v := w.(rf := w.rf + 1, swapped := Remove(w.swapped, r), fwd := w.fwd + [r]);
    RemoveNoDup(w.swapped, r);
    Extend(p.refl, w.rf);
    WithoutStep(p.refl, p.Exceptions(), w.rf);
    assert Lists(p, v);
    NotRunning(p, w);
  }

  /** While the class field is not an undecided swap, no lined-up swap is under way. */
  lemma NotRunning<T(!new)>(p: Problem<T>, w: Walk<T>)
    requires p.Distinct() && Inv(p, w) && w.f < |p.cls| && p.cls[w.f] !in w.swapped
    ensures forall g: nat, k: nat, q: nat :: p.LinedUp(g, k, q) ==> w.f < g
  {
    forall g: nat, k: nat, q: nat | p.LinedUp(g, k, q)
      ensures w.f < g
    {
      Extend(p.cls, w.f);
      Extend(p.refl, q);
    }
  }

  /** Passing a class field that is no undecided swap stays in front of every lined-up swap. */
  lemma PassUnpassed<T(!new)>(p: Problem<T>, w: Walk<T>)
    requires w.f < |p.cls| && p.cls[w.f] in p.Exceptions()
    requires forall g: nat, k: nat, q: nat :: p.LinedUp(g, k, q) ==> w.f < g
    ensures Unpassed(p, w.(f := w.f + 1))
  {
    forall g: nat, k: nat, q: nat | p.LinedUp(g, k, q)
      ensures w.f + 1 < g
    {
      assert g != w.f + 1;
    }
  }

  lemma IgnoreLists<T(!new)>(p: Problem<T>, w: Walk<T>)
    requires p.Distinct() && InBounds(p, w) && Lists(p, w) && w.f < |p.cls|
    requires p.cls[w.f] !in w.swapped && p.cls[w.f] in w.ignored
    ensures var c := p.cls[w.f];
            Lists(p, w.(f := w.f + 1, ignored := Remove(w.ignored, c), seen := w.seen + [c]))
  {
    RemoveNoDup(w.ignored, p.cls[w.f]);
    Extend(p.cls, w.f);
  }

  lemma IgnoreStep<T(!new)>(p: Problem<T>, w: Walk<T>)
    requires p.Distinct() && Inv(p, w) && w.f < |p.cls|
    requires p.cls[w.f] !in w.swapped && p.cls[w.f] in w.ignored
    requires w.rf < |p.refl| ==> p.refl[w.rf] !in w.swapped && p.refl[w.rf] != p.cls[w.f]
    ensures var c := p.cls[w.f];
            Inv(p, w.(f := w.f + 1, ignored := Remove(w.ignored, c), seen := w.seen + [c]))
  {
    IgnoreLists(p, w);
    WithoutStep(p.cls, p.Exceptions(), w.f);
    NotRunning(p, w);
    PassUnpassed(p, w);
  }

  lemma BackFoundStep<T(!new)>(p: Problem<T>, w: Walk<T>)
    requires p.Distinct() && Inv(p, w) && w.rf < |p.refl| && p.refl[w.rf] in w.back
    requires w.f < |p.cls| ==> p.cls[w.f] !in w.swapped
    ensures Inv(p, w.(rf := w.rf + 1, back := Remove(w.back, p.refl[w.rf])))
  {
    var v := w.(rf := w.rf + 1, back := Remove(w.back, p.refl[w.rf]));
    RemoveNoDup(w.back, p.refl[w.rf]);
    Extend(p.refl, w.rf);
    WithoutStep(p.refl, p.Exceptions(), w.rf);
    assert Lists(p, v);
    if w.f < |p.cls| { NotRunning(p, w); }
  }

  lemma ForwardFoundLists<T(!new)>(p: Problem<T>, w: Walk<T>)
    requires p.Distinct() && InBounds(p, w) && Lists(p, w) && w.f < |p.cls|
    requires p.cls[w.f] !in w.swapped && p.cls[w.f] !in w.ignored && p.cls[w.f] in w.fwd
    ensures Lists(p, w.(f := w.f + 1, fwd := Remove(w.fwd, p.cls[w.f])))
  {
    RemoveNoDup(w.fwd, p.cls[w.f]);
    Extend(p.cls, w.f);
  }

  lemma ForwardFoundStep<T(!new)>(p: Problem<T>, w: Walk<T>)
    requires p.Distinct() && Inv(p, w) && w.f < |p.cls|
    requires p.cls[w.f] !in w.swapped && p.cls[w.f] !in w.ignored && p.cls[w.f] in w.fwd
    requires w.rf < |p.refl| ==> p.refl[w.rf] !in w.swapped
    ensures Inv(p, w.(f := w.f + 1, fwd := Remove(w.fwd, p.cls[w.f])))
  {
    ForwardFoundLists(p, w);
    WithoutStep(p.cls, p.Exceptions(), w.f);
    NotRunning(p, w);
    PassUnpassed(p, w);
  }

  /** A class field none of the exceptions claims is an ordinary field. */
  lemma Ordinary<T(!new)>(p: Problem<T>, w: Walk<T>)
    requires p.Distinct() && Inv(p, w) && w.f < |p.cls|
    requires p.cls[w.f] !in w.swapped && p.cls[w.f] !in w.ignored && p.cls[w.f] !in w.fwd
    ensures p.cls[w.f] !in p.Exceptions()
  {
    Extend(p.cls, w.f);
  }

  lemma MatchLists<T(!new)>(p: Problem<T>, w: Walk<T>)
    requires p.Distinct() && InBounds(p, w) && Lists(p, w) && w.f < |p.cls| && w.rf < |p.refl|
    requires p.cls[w.f] == p.refl[w.rf] && p.cls[w.f] !in p.Exceptions()
    ensures Lists(p, w.(f := w.f + 1, rf := w.rf + 1, gap := w.f + 1))
  {
    Extend(p.cls, w.f);
    Extend(p.refl, w.rf);
  }

  lemma MatchUnpassed<T(!new)>(p: Problem<T>, w: Walk<T>)
    requires NoDup(p.refl) && w.f < |p.cls| && w.rf < |p.refl| && p.cls[w.f] == p.refl[w.rf]
    requires forall g: nat, k: nat, q: nat :: p.LinedUp(g, k, q) ==> w.f < g
    ensures Unpassed(p, w.(f := w.f + 1, rf := w.rf + 1))
  {
    forall g: nat, k: nat, q: nat | p.LinedUp(g, k, q)
      ensures w.f + 1 < g || (w.f + 1 <= k && w.rf + 1 == q)
    {
      if g == w.f + 1 { assert p.refl[q - 1] == p.refl[w.rf]; }
    }
  }

  lemma MatchMatched<T(!new)>(p: Problem<T>, w: Walk<T>)
    requires InBounds(p, w) && Matched(p, w) && w.f < |p.cls| && w.rf < |p.refl|
    requires p.cls[w.f] == p.refl[w.rf] && p.cls[w.f] !in p.Exceptions()
    ensures Matched(p, w.(f := w.f + 1, rf := w.rf + 1, gap := w.f + 1))
  {
    WithoutStep(p.cls, p.Exceptions(), w.f);
    WithoutStep(p.refl, p.Exceptions(), w.rf);
  }

  lemma MatchClean<T(!new)>(p: Problem<T>, w: Walk<T>)
    requires InBounds(p, w) && w.f < |p.cls| && w.rf < |p.refl|
    requires p.cls[w.f] == p.refl[w.rf] && p.cls[w.f] !in p.Exceptions()
    ensures var v := w.(f := w.f + 1, rf := w.rf + 1, gap := w.f + 1); InBounds(p, v) && Clean(p, v)
  {
  }

  lemma MatchStep<T(!new)>(p: Problem<T>, w: Walk<T>)
    requires p.Distinct() && Inv(p, w) && w.f < |p.cls| && w.rf < |p.refl|
    requires p.cls[w.f] == p.refl[w.rf]
    requires p.cls[w.f] !in w.swapped && p.cls[w.f] !in w.ignored && p.cls[w.f] !in w.fwd
    ensures Inv(p, w.(f := w.f + 1, rf := w.rf + 1, gap := w.f + 1))
  {
    Ordinary(p, w);
    MatchLists(p, w);
    MatchMatched(p, w);
    MatchClean(p, w);
    NotRunning(p, w);
    MatchUnpassed(p, w);
  }

  // ---------------------------------------------------------------------------------------------
  // Every refusal is justified, and so is the final acceptance

  lemma RefusedLinedUp<T(!new)>(p: Problem<T>, w: Walk<T>)
    requires p.Distinct() && Inv(p, w) && w.f < |p.cls| && w.rf < |p.refl|
    requires p.cls[w.f] in w.swapped && p.refl[w.rf] == p.cls[w.f]
    ensures p.LinedUp(w.gap, w.f, w.rf)
  {
  }

  lemma RefusedAbsent<T(!new)>(p: Problem<T>, w: Walk<T>)
    requires Inv(p, w) && w.f < |p.cls| && p.cls[w.f] in w.swapped && p.cls[w.f] !in p.refl
    ensures !p.Accepts()
  {
  }

  lemma RefusedReflected<T(!new)>(p: Problem<T>, w: Walk<T>)
    requires Inv(p, w) && w.rf < |p.refl| && (p.refl[w.rf] in w.seen || p.refl[w.rf] in w.ignored)
    ensures !p.Accepts()
  {
    assert p.refl[w.rf] in p.refl;
  }

  lemma RefusedMismatch<T(!new)>(p: Problem<T>, w: Walk<T>)
    requires p.Distinct() && Inv(p, w) && w.f < |p.cls|
    requires p.cls[w.f] !in w.swapped && p.cls[w.f] !in w.ignored && p.cls[w.f] !in w.fwd
    requires w.rf < |p.refl| ==>
               p.refl[w.rf] != p.cls[w.f] && p.refl[w.rf] !in w.swapped && p.refl[w.rf] !in w.back
    ensures !p.Accepts()
  {
    var drop := p.Exceptions();
    Ordinary(p, w);
    WithoutAt(p.cls, drop, w.f);
    if w.rf < |p.refl| {
      Extend(p.refl, w.rf);
      assert p.refl[w.rf] !in p.swapped;
      if p.refl[w.rf] !in p.ignored { WithoutAt(p.refl, drop, w.rf); }
    } else {
      assert p.refl[..w.rf] == p.refl;
    }
  }

  lemma RefusedAtEnd<T(!new)>(p: Problem<T>, w: Walk<T>)
    requires p.Distinct() && Inv(p, w) && w.f == |p.cls|
    requires w.ignored != [] || (w.rf == |p.refl| && (w.swapped != [] || w.back != [] || w.fwd != []))
    ensures !p.Accepts()
  {
    assert p.cls[..w.f] == p.cls;
    if w.ignored != [] {
      assert w.ignored[0] in w.ignored;
    } else {
      assert p.refl[..w.rf] == p.refl;
      if w.swapped != [] { assert w.swapped[0] in w.swapped; }
      if w.back != [] { assert w.back[0] in w.back; }
      if w.fwd != [] { assert w.fwd[0] in w.fwd; }
    }
  }

  lemma RefusedUnused<T(!new)>(p: Problem<T>, w: Walk<T>)
    requires p.Distinct() && Inv(p, w) && w.f == |p.cls| && w.rf < |p.refl|
    requires p.refl[w.rf] !in w.back
    ensures !p.Accepts()
  {
    assert p.cls[..w.f] == p.cls;
    Extend(p.refl, w.rf);
    if p.refl[w.rf] !in p.Exceptions() { WithoutAt(p.refl, p.Exceptions(), w.rf); }
  }

  lemma AcceptedAtEnd<T(!new)>(p: Problem<T>, w: Walk<T>)
    requires p.Distinct() && Inv(p, w) && w.f == |p.cls| && w.rf == |p.refl|
    requires w.ignored == [] && w.swapped == [] && w.back == [] && w.fwd == []
    ensures p.Accepts()
  {
    assert p.cls[..w.f] == p.cls && p.refl[..w.rf] == p.refl;
  }

  // ---------------------------------------------------------------------------------------------
  // The code

  /** The matching walk: whether every assertion held, and what is left of the two declared lists.
      With distinct fields that is exactly `Accepts`. */
  method MatchFields<T(==, !new)>(cls: seq<T>, refl: seq<T>, swapped0: seq<T>, ignored0: seq<T>)
    returns (ok: bool, swapped: seq<T>, ignored: seq<T>)
    ensures var p := Problem(cls, refl, swapped0, ignored0); p.Distinct() ==> (ok <==> p.Accepts())
    ensures ok ==> ignored == [] && swapped == []
  {
    ghost var p := Problem(cls, refl, swapped0, ignored0);
    ghost var d := p.Distinct();
    ok, swapped, ignored := false, swapped0, ignored0;
    var rf, f := 0, 0;
    var back: seq<T>, fwd: seq<T>, seen: seq<T> := [], [], [];
    ghost var w := Walk(0, 0, swapped, ignored, [], [], [], 0);
    if d { StartInv(p); }
    while f < |cls|
      invariant f <= |cls| && rf <= |refl| && !ok
      invariant w == Walk(f, rf, swapped, ignored, back, fwd, seen, w.gap)
      invariant d ==> Inv(p, w)
      decreases |cls| - f + |refl| - rf
    {
      var field := cls[f];
      if field in swapped {
        swapped := Remove(swapped, field);
        back := back + [field];
        if field !in refl {
          if d { RefusedAbsent(p, w); }
          return;
        }
        if rf < |refl| && refl[rf] == field {
          if d { RefusedLinedUp(p, w); }
          return;
        }
        if d { BackStep(p, w); }
        w := w.(f := w.f + 1, swapped := Remove(w.swapped, field), back := w.back + [field]);
        f := f + 1;
        continue;
      }
      if rf < |refl| && refl[rf] in swapped {
        if d { ForwardStep(p, w); }
        w := w.(rf := w.rf + 1, swapped := Remove(w.swapped, refl[rf]), fwd := w.fwd + [refl[rf]]);
        swapped := Remove(swapped, refl[rf]);
        fwd := fwd + [refl[rf]];
        rf := rf + 1;
        continue;
      }
      if rf < |refl| && refl[rf] in seen {
        if d { RefusedReflected(p, w); }
        return;
      }
      if field in ignored {
        ignored := Remove(ignored, field);
        seen := seen + [field];
        if rf < |refl| && refl[rf] == field {
          if d { RefusedReflected(p, w); }
          return;
        }
        if d { IgnoreStep(p, w); }
        w := w.(f := w.f + 1, ignored := Remove(w.ignored, field), seen := w.seen + [field]);
        f := f + 1;
        continue;
      }
      if rf < |refl| && refl[rf] in back {
        if d { BackFoundStep(p, w); }
        w := w.(rf := w.rf + 1, back := Remove(w.back, refl[rf]));
        back := Remove(back, refl[rf]);
        rf := rf + 1;
      } else if field in fwd {
        if d { ForwardFoundStep(p, w); }
        w := w.(f := w.f + 1, fwd := Remove(w.fwd, field));
        fwd := Remove(fwd, field);
        f := f + 1;
      } else {
        if rf == |refl| || refl[rf] != field {
          if d { RefusedMismatch(p, w); }
          return;
        }
        if d { MatchStep(p, w); }
        w := w.(f := w.f + 1, rf := w.rf + 1, gap := w.f + 1);
        f := f + 1;
        rf := rf + 1;
      }
    }
    if ignored != [] {
      if d { RefusedAtEnd(p, w); }
      return;
    }
    ok := Leftovers(refl, rf, swapped, back, fwd, p, w);
  }

  /** The end of the walk: the reflected fields not reached must all be swaps the class announced, and
      no list may be left over. */
  method Leftovers<T(==, !new)>(refl: seq<T>, start: nat, swapped: seq<T>, pending: seq<T>, fwd: seq<T>,
                                ghost p: Problem<T>, ghost w: Walk<T>) returns (ok: bool)
    requires start <= |refl| && p.refl == refl
    requires w.(gap := 0, seen := []) == Walk(|p.cls|, start, swapped, [], pending, fwd, [], 0)
    requires p.Distinct() ==> Inv(p, w)
    ensures p.Distinct() ==> (ok <==> p.Accepts())
    ensures ok ==> swapped == []
  {
    var rf, back := start, pending;
    ghost var d := p.Distinct();
    var unused: seq<T> := [];
    while rf < |refl|
      invariant rf <= |refl|
      invariant d && unused == [] ==> Inv(p, w.(rf := rf, back := back))
      invariant d && unused != [] ==> !p.Accepts()
    {
      if refl[rf] in back {
        if d && unused == [] { BackFoundStep(p, w.(rf := rf, back := back)); }
        back := Remove(back, refl[rf]);
      } else {
        if d && unused == [] { RefusedUnused(p, w.(rf := rf, back := back)); }
        unused := unused + [refl[rf]];
      }
      rf := rf + 1;
    }
    if unused != [] { return false; }
    if swapped != [] || back != [] || fwd != [] {
      if d { RefusedAtEnd(p, w.(rf := rf, back := back)); }
      return false;
    }
    if d { AcceptedAtEnd(p, w.(rf := rf, back := back)); }
    return true;
  }

  /** What a declaration does: it is taken, it is refused with an AssertionError that the caller
      reports, or it dies with a TypeError that no caller catches. */
  datatype Declared = Taken | Refused | Uncaught

  datatype Directive = Ignore | Swap

  class Reflection {
    var fields: seq<string>
    var ignored: seq<string>
    var swapped: seq<string>

    ghost predicate Valid()
      reads this
    {
      NoDup(fields) && NoDup(ignored) && NoDup(swapped) && forall x :: x in ignored ==> x !in swapped
    }

    constructor ()
      ensures Valid() && fields == ignored == swapped == []
    {
      fields, ignored, swapped := [], [], [];
    }

    method AddField(field: string) returns (d: Declared)
      requires Valid()
      modifies this`fields
      ensures Valid()
      ensures d == if field in old(fields) then Refused else Taken
      ensures fields == if d.Taken? then old(fields) + [field] else old(fields)
    {
      if field in fields { return Refused; }
      fields := fields + [field];
      return Taken;
    }

    /** The names of one comment, in order, up to the first that is refused; `taken` counts those before it. */
    method AddIgnoreSwaps(names: seq<string>, directive: Directive) returns (d: Declared, ghost taken: nat)
      requires Valid()
      modifies this`ignored, this`swapped
      ensures Valid() && taken <= |names| && (d.Taken? <==> taken == |names|)
      ensures match directive
              case Ignore => ignored == old(ignored) + names[..taken] && swapped == old(swapped)
              case Swap => swapped == old(swapped) + names[..taken] && ignored == old(ignored)
      ensures d.Taken? <==> NoDup(names) && forall x :: x in names ==> x !in old(ignored) && x !in old(swapped)
      ensures d.Refused? ==> if directive.Ignore? then names[taken] in ignored + swapped else names[taken] in ignored
      ensures d.Uncaught? ==> directive.Swap? && names[taken] in swapped
    {
      var current := 0;
      while current < |names|
        invariant current <= |names| && Valid()
        invariant NoDup(names[..current])
        invariant forall x :: x in names[..current] ==> x !in old(ignored) && x !in old(swapped)
        invariant match directive
                  case Ignore => ignored == old(ignored) + names[..current] && swapped == old(swapped)
                  case Swap => swapped == old(swapped) + names[..current] && ignored == old(ignored)
      {
        var name := names[current];
        Extend(names, current);
        assert name in names;
        if directive.Ignore? {
          if name in ignored { return Refused, current; }
          if name in swapped { return Refused, current; }
          ignored := ignored + [name];
        } else {
          // The message of the first assertion has three placeholders and two arguments.
          if name in swapped { return Uncaught, current; }
          if name in ignored { return Refused, current; }
          swapped := swapped + [name];
        }
        current := current + 1;
      }
      assert names[..current] == names;
      return Taken, current;
    }

    /** The matching of one reflection against its class. It consumes `swapped` and `ignored`. The `id` of a
        chainbase object is ignored without being declared, unless it is mentioned at all. */
    method Match(cls: seq<string>, ignoreId: bool) returns (ok: bool)
      requires Valid()
      modifies this`ignored, this`swapped
      ensures NoDup(cls) && ignoreId && "id" !in old(ignored) + old(swapped) + fields ==>
                (ok <==> old(Problem(cls, fields, swapped, ignored + ["id"]).Accepts()))
      ensures NoDup(cls) && (!ignoreId || "id" in old(ignored) + old(swapped) + fields) ==>
                (ok <==> old(Problem(cls, fields, swapped, ignored).Accepts()))
      ensures ok ==> ignored == [] && swapped == []
    {
      if ignoreId && "id" !in ignored && "id" !in fields {
        if "id" in swapped {
          SwappedAbsent(Problem(cls, fields, swapped, ignored), "id");
          SwappedAbsent(Problem(cls, fields, swapped, ignored + ["id"]), "id");
        }
        ignored := ignored + ["id"];
      }
      ok, swapped, ignored := MatchFields(cls, fields, swapped, ignored);
    }
  }

  /** Two records of the same reflection of a chainbase object: one leaves `id` to the matcher, the other
      declares it as ignored. They are accepted alike; without swaps, exactly if the reflected fields are those of
      the class with `id` and the ignored ones taken out, all of which are there. */
  method ImplicitId(cls: seq<string>, silent: Reflection, spoken: Reflection) returns (ok: bool, same: bool)
    requires silent != spoken && silent.Valid() && spoken.Valid() && NoDup(cls)
    requires silent.fields == spoken.fields && silent.ignored == spoken.ignored && silent.swapped == spoken.swapped
    requires "id" !in silent.ignored + silent.swapped + silent.fields
    modifies silent, spoken
    ensures ok == same
    ensures old(silent.swapped) == [] ==>
              (ok <==> old(silent.fields) == Without(cls, old(silent.ignored) + ["id"])
                       && forall x :: x in old(silent.ignored) + ["id"] ==> x in cls)
  {
    ghost var p := Problem(cls, silent.fields, silent.swapped, silent.ignored + ["id"]);
    ok := silent.Match(cls, true);
    var d;
    ghost var taken;
    assert NoDup(["id"]) && ["id"][..1] == ["id"];
    d, taken := spoken.AddIgnoreSwaps(["id"], Ignore);
    assert spoken.ignored == p.ignored;
    same := spoken.Match(cls, false);
    if p.swapped == [] { AcceptedWithoutSwaps(p); }
  }

  /** A swap that is not reflected is never accepted. */
  lemma SwappedAbsent<T(!new)>(p: Problem<T>, x: T)
    requires x in p.swapped && x !in p.refl
    ensures !p.Accepts()
  {
  }

  // ---------------------------------------------------------------------------------------------
  // What acceptance means

  /** An accepted reflection is a permutation of the class fields that are not ignored. */
  lemma AcceptedIsPermutation<T(!new)>(p: Problem<T>)
    requires p.Distinct() && p.Accepts()
    ensures multiset(p.refl) == multiset(Without(p.cls, p.ignored))
  {
    WithoutNoDup(p.cls, p.ignored);
    WithoutMembers(p.cls, p.ignored);
    WithoutMembers(p.cls, p.Exceptions());
    WithoutMembers(p.refl, p.Exceptions());
    forall x
      ensures x in p.refl <==> x in Without(p.cls, p.ignored)
    {
      assert x in Without(p.cls, p.Exceptions()) <==> x in Without(p.refl, p.Exceptions());
    }
    SameElements(p.refl, Without(p.cls, p.ignored));
  }

  lemma {:induction false} Multiplicity<T(!new)>(s: seq<T>, x: T)
    requires NoDup(s)
    ensures multiset(s)[x] == if x in s then 1 else 0
  {
    if s != [] {
      assert s == [s[0]] + s[1..];
      Multiplicity(s[1..], x);
    }
  }

  lemma SameElements<T(!new)>(a: seq<T>, b: seq<T>)
    requires NoDup(a) && NoDup(b)
    requires forall x :: x in a <==> x in b
    ensures multiset(a) == multiset(b)
  {
    forall x
      ensures multiset(a)[x] == multiset(b)[x]
    {
      Multiplicity(a, x);
      Multiplicity(b, x);
    }
  }

  /** Without swaps the reflection has to be the class with the ignored fields taken out, and every
      ignored field has to be there to be taken out. */
  lemma AcceptedWithoutSwaps<T(!new)>(p: Problem<T>)
    requires p.Distinct() && p.swapped == []
    ensures p.Accepts() <==> p.refl == Without(p.cls, p.ignored) && forall x :: x in p.ignored ==> x in p.cls
  {
    assert p.Exceptions() == p.ignored;
    WithoutReflected(p.cls, p.refl, p.ignored);
    assert p.NoneLinedUp();
    assert p.Located() <==> forall x :: x in p.ignored ==> x in p.cls && x !in p.refl;
  }

  lemma WithoutReflected<T(!new)>(cls: seq<T>, refl: seq<T>, drop: seq<T>)
    ensures (forall x :: x in drop ==> x !in refl) && Without(cls, drop) == Without(refl, drop)
            <==> refl == Without(cls, drop)
  {
    if forall x :: x in drop ==> x !in refl {
      NothingDropped(refl, drop);
    } else {
      WithoutMembers(cls, drop);
    }
  }

  lemma {:induction false} NothingDropped<T(!new)>(s: seq<T>, drop: seq<T>)
    requires forall x :: x in drop ==> x !in s
    ensures Without(s, drop) == s
  {
    if s != [] {
      var n := |s| - 1;
      NothingDropped(s[..n], drop);
      assert s[n] in s;
    }
  }

  /** A swap declared for a field of a reflection that needs none. */
  ghost predicate Needless<T(!new)>(p: Problem<T>, at: nat) {
    && p.Distinct() && at < |p.cls| && p.swapped == [p.cls[at]]
    && p.cls[at] !in p.ignored && (forall x :: x in p.ignored ==> x in p.cls)
    && p.refl == Without(p.cls, p.ignored)
  }

  lemma NeedlessMembers<T(!new)>(p: Problem<T>, at: nat)
    requires Needless(p, at)
    ensures p.Located()
  {
    WithoutMembers(p.cls, p.ignored);
    assert p.cls[at] in p.cls;
  }

  lemma NeedlessRest<T(!new)>(p: Problem<T>, at: nat)
    requires Needless(p, at)
    ensures p.SameRest()
  {
    WithoutTwice(p.cls, p.ignored, p.swapped);
  }

  lemma NeedlessPlace<T(!new)>(p: Problem<T>, at: nat)
    requires Needless(p, at) && (at == 0 || p.cls[at - 1] !in p.ignored)
    ensures p.LinedUp(at, at, |Without(p.cls[..at], p.ignored)|)
  {
    WithoutAt(p.cls, p.ignored, at);
    if at > 0 {
      WithoutStep(p.cls, p.ignored, at - 1);
      WithoutPrefix(p.cls, p.ignored, at);
    }
  }

  /** The header comment asks to declare only fields that are out of order. A single swap declared for
      a field that is in order is refused unless the class field just before it is an ignored one. */
  lemma NeedlessSwap<T(!new)>(p: Problem<T>, at: nat)
    requires Needless(p, at)
    ensures p.Accepts() <==> at > 0 && p.cls[at - 1] in p.ignored
  {
    NeedlessMembers(p, at);
    NeedlessRest(p, at);
    if at > 0 && p.cls[at - 1] in p.ignored {
      forall g: nat, k: nat, r: nat
        ensures !p.LinedUp(g, k, r)
      {
      }
    } else {
      NeedlessPlace(p, at);
    }
  }

  lemma {:induction false} WithoutTwice<T(!new)>(s: seq<T>, a: seq<T>, b: seq<T>)
    ensures Without(s, b + a) == Without(Without(s, a), b + a)
  {
    if s != [] {
      var n := |s| - 1;
      WithoutTwice(s[..n], a, b);
      var t := Without(s[..n], a);
      if s[n] in a {
        assert Without(s, a) == t;
      } else {
        assert Without(s, a) == t + [s[n]] && (t + [s[n]])[..|t|] == t;
      }
    }
  }

  /** What `Without` comes to on four elements. */
  lemma WithoutFour<T(!new)>(a: T, b: T, c: T, d: T, drop: seq<T>)
    ensures Without([a, b, c, d], drop)
         == (if a in drop then [] else [a]) + (if b in drop then [] else [b]) + (if c in drop then [] else [c])
             + (if d in drop then [] else [d])
  {
    var s := [a, b, c, d];
    assert s[..4] == s && s[..0] == [];
    WithoutStep(s, drop, 0);
    WithoutStep(s, drop, 1);
    WithoutStep(s, drop, 2);
    WithoutStep(s, drop, 3);
  }

  /** The example of the header comment: with the class order a, b, c, d and the reflected order a, c, b, d,
      either b or c may be declared as swapped, but not both. */
  lemma HeaderExample<T(!new)>(a: T, b: T, c: T, d: T)
    requires NoDup([a, b, c, d])
    ensures Problem([a, b, c, d], [a, c, b, d], [b], []).Accepts()
    ensures Problem([a, b, c, d], [a, c, b, d], [c], []).Accepts()
    ensures !Problem([a, b, c, d], [a, c, b, d], [b, c], []).Accepts()
  {
    var all := [a, b, c, d];
    assert all[0] == a && all[1] == b && all[2] == c && all[3] == d;
    OneSwap(a, b, c, d, b);
    OneSwap(a, b, c, d, c);
    assert Problem(all, [a, c, b, d], [b, c], []).LinedUp(1, 2, 1);
  }

  lemma OneSwap<T(!new)>(a: T, b: T, c: T, d: T, x: T)
    requires a != b && a != c && a != d && b != c && b != d && c != d && (x == b || x == c)
    ensures Problem([a, b, c, d], [a, c, b, d], [x], []).Accepts()
  {
    var p := Problem([a, b, c, d], [a, c, b, d], [x], []);
    assert p.Exceptions() == [x];
    WithoutFour(a, b, c, d, [x]);
    WithoutFour(a, c, b, d, [x]);
    assert b in p.cls && c in p.cls && b in p.refl && c in p.refl;
    forall g: nat, k: nat, q: nat ensures !p.LinedUp(g, k, q) {
      assert p.refl[1] == c && p.refl[2] == b;
    }
  }

  /** A field in its right place, declared as swapped behind an ignored one, and accepted. */
  lemma NeedlessAfterIgnored<T(!new)>(x: T, y: T, z: T)
    requires x != y && y != z && x != z
    ensures Problem([x, y, z], [y, z], [y], [x]).Accepts()
  {
    var p := Problem([x, y, z], [y, z], [y], [x]);
    assert p.cls[0] == x && p.cls[1] == y && p.cls[2] == z;
    WithoutFirst(x, y, z);
    assert Needless(p, 1);
    NeedlessSwap(p, 1);
  }

  lemma WithoutFirst<T(!new)>(x: T, y: T, z: T)
    requires x != y && x != z
    ensures Without([x, y, z], [x]) == [y, z]
  {
    var s := [x, y, z];
    assert s[..3] == s && s[..0] == [];
    WithoutStep(s, [x], 0);
    WithoutStep(s, [x], 1);
    WithoutStep(s, [x], 2);
  }

  lemma NeedlessSwapExample()
    ensures Problem(["flags", "owner", "amount"], ["owner", "amount"], ["owner"], ["flags"]).Accepts()
  {
    assert "flags"[0] == 'f' && "owner"[0] == 'o' && "amount"[0] == 'a';
    NeedlessAfterIgnored("flags", "owner", "amount");
  }
}
