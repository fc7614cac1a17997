/** Chains of steps: `Linked` is the reflexive, transitive closure of a step relation. */
module Links {

  /** `path` lists the points visited after `a`, the last of them being `b`. */
  ghost predicate Walk<T(!new)>(step: (T, T) -> bool, a: T, path: seq<T>, b: T)
    decreases |path|
  {
    if path == [] then a == b
    else step(a, path[0]) && Walk(step, path[0], path[1..], b)
  }

  ghost predicate Linked<T(!new)>(step: (T, T) -> bool, a: T, b: T) {
    exists path :: Walk(step, a, path, b)
  }

  lemma Refl<T(!new)>(step: (T, T) -> bool, a: T)
    ensures Linked(step, a, a)
  {
    assert Walk(step, a, [], a);
  }

  lemma One<T(!new)>(step: (T, T) -> bool, a: T, b: T)
    requires step(a, b)
    ensures Linked(step, a, b)
  {
    assert Walk(step, b, [], b);
    assert Walk(step, a, [b], b);
  }

  lemma {:induction false} JoinWalks<T(!new)>(step: (T, T) -> bool, a: T, p: seq<T>, b: T, q: seq<T>, c: T)
    requires Walk(step, a, p, b) && Walk(step, b, q, c)
    ensures Walk(step, a, p + q, c)
    decreases |p|
  {
    if p == [] {
      assert p + q == q;
    } else {
      JoinWalks(step, p[0], p[1..], b, q, c);
      assert (p + q)[1..] == p[1..] + q;
    }
  }

  lemma Trans<T(!new)>(step: (T, T) -> bool, a: T, b: T, c: T)
    requires Linked(step, a, b) && Linked(step, b, c)
    ensures Linked(step, a, c)
  {
    var p :| Walk(step, a, p, b);
    var q :| Walk(step, b, q, c);
    JoinWalks(step, a, p, b, q, c);
  }

  ghost predicate Symmetric<T(!new)>(step: (T, T) -> bool) {
    forall a, b :: step(a, b) ==> step(b, a)
  }

  lemma {:induction false} ReverseWalk<T(!new)>(step: (T, T) -> bool, a: T, p: seq<T>, b: T)
    requires Symmetric(step) && Walk(step, a, p, b)
    ensures Linked(step, b, a)
    decreases |p|
  {
    if p == [] {
      Refl(step, a);
    } else {
      ReverseWalk(step, p[0], p[1..], b);
      One(step, p[0], a);
      Trans(step, b, p[0], a);
    }
  }

  lemma Sym<T(!new)>(step: (T, T) -> bool, a: T, b: T)
    requires Symmetric(step) && Linked(step, a, b)
    ensures Linked(step, b, a)
  {
    var p :| Walk(step, a, p, b);
    ReverseWalk(step, a, p, b);
  }

  /** A label that every step keeps is kept by every chain. */
  lemma {:induction false} SameLabel<T(!new), L(!new)>(step: (T, T) -> bool, tag: T -> L, a: T, p: seq<T>, b: T)
    requires forall x, y :: step(x, y) ==> tag(x) == tag(y)
    requires Walk(step, a, p, b)
    ensures tag(a) == tag(b)
    decreases |p|
  {
    if p != [] {
      SameLabel(step, tag, p[0], p[1..], b);
    }
  }

  /** A chain survives when every step of it can be replaced by a chain between the images. */
  lemma {:induction false} MapWalk<T(!new), U(!new)>(
    step: (T, T) -> bool, to: (U, U) -> bool, image: T -> U, a: T, p: seq<T>, b: T)
    requires forall x, y :: step(x, y) ==> Linked(to, image(x), image(y))
    requires Walk(step, a, p, b)
    ensures Linked(to, image(a), image(b))
    decreases |p|
  {
    if p == [] {
      Refl(to, image(a));
    } else {
      MapWalk(step, to, image, p[0], p[1..], b);
      Trans(to, image(a), image(p[0]), image(b));
    }
  }
}
