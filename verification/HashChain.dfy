/** Chains of entries in which each one names the hash of the one before it. */
module HashChain {
  import opened Prelude

  /** `link(p, v)`: entry `v` is well formed, hashes to what it says and names `p` as the previous
      hash; `clash(a, b)`: the two entries exhibit a collision of the digest. */
  datatype Rules<!T> = Rules(genesis: string, link: (string, T) -> bool, hash: T -> string, clash: (T, T) -> bool)

  /** Hash of the last entry, or the genesis marker. */
  function Head<T>(r: Rules<T>, vs: seq<T>): string {
    if vs == [] then r.genesis else r.hash(Last(vs))
  }

  predicate Chained<T>(r: Rules<T>, vs: seq<T>) {
    vs == [] || (Chained(r, vs[..|vs| - 1]) && r.link(Head(r, vs[..|vs| - 1]), Last(vs)))
  }

  /** Equal hashes mean equal entries in equal places, short of a clash; no entry hashes to the
      genesis marker. */
  ghost predicate Binding<T(!new)>(r: Rules<T>) {
    && (forall p, q, a, b :: r.link(p, a) && r.link(q, b) && r.hash(a) == r.hash(b) ==>
                               (p == q && a == b) || r.clash(a, b))
    && (forall p, a :: r.link(p, a) ==> r.hash(a) != r.genesis)
  }

  /** A prefix of a valid chain is valid: only knowledge of the last hash tells them apart. */
  lemma {:induction false} Prefix<T>(r: Rules<T>, vs: seq<T>, n: nat)
    requires Chained(r, vs) && n <= |vs|
    ensures Chained(r, vs[..n])
    decreases |vs|
  {
    if n == |vs| {
      assert vs[..n] == vs;
    } else {
      assert vs[..|vs| - 1][..n] == vs[..n];
      Prefix(r, vs[..|vs| - 1], n);
    }
  }

  /** The last hash pins the whole history: two valid chains that end in the same hash are the same
      entries in the same order, or they hold two clashing ones. */
  lemma {:induction false} HeadPins<T(!new)>(r: Rules<T>, a: seq<T>, b: seq<T>) returns (clash: Option<(T, T)>)
    requires Binding(r) && Chained(r, a) && Chained(r, b) && Head(r, a) == Head(r, b)
    ensures clash.None? ==> a == b
    ensures clash.Some? ==> clash.value.0 in a && clash.value.1 in b && r.clash(clash.value.0, clash.value.1)
    decreases |a|
  {
    clash := None;
    if a != [] && b != [] {
      var a', b' := a[..|a| - 1], b[..|b| - 1];
      assert r.link(Head(r, a'), Last(a)) && r.link(Head(r, b'), Last(b));
      if r.clash(Last(a), Last(b)) {
        clash := Some((Last(a), Last(b)));
      } else {
        clash := HeadPins(r, a', b');
        assert a == a' + [Last(a)] && b == b' + [Last(b)];
      }
    }
  }

  /** No hash occurs twice in a valid chain, short of a clash. */
  lemma HashesDistinct<T(!new)>(r: Rules<T>, vs: seq<T>, i: nat, j: nat) returns (clash: Option<(T, T)>)
    requires Binding(r) && Chained(r, vs) && i < j < |vs|
    ensures clash.None? ==> r.hash(vs[i]) != r.hash(vs[j])
    ensures clash.Some? ==> clash.value.0 in vs && clash.value.1 in vs && r.clash(clash.value.0, clash.value.1)
  {
    clash := None;
    if r.hash(vs[i]) == r.hash(vs[j]) {
      Prefix(r, vs, i + 1);
      Prefix(r, vs, j + 1);
      clash := HeadPins(r, vs[..i + 1], vs[..j + 1]);
    }
  }
}
