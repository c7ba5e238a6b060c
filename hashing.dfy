/** The one-way hash used for passwords and captcha codes (bcryptjs `hash` and
    `compare`), as a pair of uninterpreted functions. The random salt is folded
    into `hash`. */
module Hashing {

  datatype Hasher = Hasher(hash: string -> string, verify: (string, string) -> bool)

  /** The only property the core relies on: a secret matches its own hash. */
  ghost predicate Sound(h: Hasher) {
    forall p :: h.verify(p, h.hash(p))
  }

  /** A stronger hypothesis, used only where a lemma says so: a hash matches
      nothing but its own secret. */
  ghost predicate CollisionFree(h: Hasher) {
    forall p, q :: h.verify(q, h.hash(p)) <==> q == p
  }

  /** Collision freedom includes soundness. */
  lemma CollisionFreeIsSound(h: Hasher)
    requires CollisionFree(h)
    ensures Sound(h)
  {
    forall p ensures h.verify(p, h.hash(p)) {
      assert h.verify(p, h.hash(p)) <==> p == p;
    }
  }

  /** A hasher that keeps the secret itself. Nothing in the model uses it: it
      is the witness that `Sound` and `CollisionFree` can hold together, so the
      members that assume them are not vacuous. */
  function Plain(): (h: Hasher)
    ensures Sound(h) && CollisionFree(h)
  {
    Hasher(p => p, (q, stored) => q == stored)
  }
}
